# A verified model of postlite's session and text layer

Postlite speaks the PostgreSQL wire protocol to clients and keeps the data in SQLite. This
project models its two hand-written cores and proves properties of them with Dafny 4.11:

- **The session** (`server.go`, with the classifiers of `command.go`): one connection takes a
  stream of frontend messages, keeps a transaction status, a skip flag, named statements and
  named portals, and drives one SQLite connection. The reference is the PostgreSQL 14
  documentation, sections 53.2.2 (simple query) and 53.2.3 (extended query).
- **The quote-aware text layer** (`rewrite.go`, `enum.go`, `sqlStringLiteral` of `catalog.go`):
  the parenthesis matcher, the argument splitter, the `CONCAT` and `TO_CHAR` rewriters, and the
  parser that recovers enum labels from `CHECK` clauses, with the OIDs handed out for them.

`dafny verify dfyconfig.toml` checks everything.

## How it is built

| file | content |
|---|---|
| `text.dfy`, `literal.dfy` | Go's character classes, trimming and joining; SQL string literals |
| `scanner.dfy`, `call_pattern.dfy` | the scanner loops and their reference semantics; the regular expressions `\bKEYWORD\s*\(` |
| `command.dfy`, `classification.dfy` | leading keyword, row-returning test, command tags, placeholders; what they mean for the text of a statement |
| `concat.dfy`, `concat_meaning.dfy`, `concat_text.dfy`, `concat_literals.dfy` | `rewriteConcat`: termination, placeholders, expressions and their values, calls read inside literals |
| `to_char.dfy`, `to_char_meaning.dfy`, `to_char_left.dfy` | `rewriteToChar` and the format replacer; what translated formats mean; which calls the rewriter leaves |
| `enum_labels.dfy`, `enum_tables.dfy`, `enum_catalog.dfy`, `enum_lost.dfy` | `parseInList`, `parseEnums`, `setupEnumCatalog`; enums that are lost |
| `sqlite.dfy` | the SQLite connection: content, open transaction, handles, a log of what ran |
| `session_spec.dfy` | the session as a state machine over messages |
| `session.dfy` | the session as objects whose handlers update their fields, shown equal to the state machine |
| `resources.dfy`, `executions.dfy`, `replies.dfy`, `transactions.dfy`, `transaction_limits.dfy`, `disciplined.dfy`, `departures.dfy`, `names.dfy`, `protocols.dfy`, `protocol_runs.dfy`, `transcripts.dfy` | the theorems over messages and whole runs, and the runs that depart from them |

SQLite is a parameter: `Sqlite.Driver` is a record of arbitrary functions (what preparing a text
gives, what running it does to the content, which columns it has), so every theorem holds for
every engine. Fixed are only the rules of transactions: `BEGIN` needs none open, `COMMIT` and
`ROLLBACK` need one, `ROLLBACK` of an open one succeeds, a `COMMIT` may fail, and any failing
statement may roll back implicitly. `Env.rewrite`, the per-connection text rewrite, is a parameter
too.

The run theorems about transactions (`StatusIsTrue`, `FailedLeavesNoTrace`) assume `Disciplined`:
every statement is `Tracked` (the engine reads it as its first word says, and transaction control
returns no rows), a portal of transaction control that is described is executed by the next
message, and one that has run is not executed again. A client that sends every `Execute` right after
the `Bind` of its portal, with at most the `Describe` of that portal in between, and follows every
`Describe` of a portal at once with its `Execute`, meets the last two (`StandardIsDisciplined`). `TransactionLimits` shows for simple queries, `Describe` and
`Execute` what happens without them, as an if-and-only-if over the state before the message, and
`Departures` gives runs in which the reported status is wrong. All other session theorems hold for every run.

A prepared statement is a value because nothing changes it after `Parse`; portals, the session and
the connection are objects. `hide` statements in proofs only keep definitions from the solver.

## Where the code departs from what one might expect

- `Describe` of a portal runs its statement, but only `Execute` moves the status; between the two
  the reported status is wrong for transaction control that succeeds (`DescribeAgreesIff`). After
  `BEGIN` parsed, bound and described, `Sync` reports I in an open transaction (`DescribedBegin`).
- A row-returning statement that starts with a transaction keyword is noted by `Execute` but not by
  a simple query (`QueryAgreesIff`, `ExecuteAgreesIff`, `PathsAgree`). After `BEGIN`, the query
  `COMMIT /* returning */` is answered with T and nothing is open (`CommentedCommitDiverges`).
- A keyword glued to punctuation is not read: where the engine takes `BEGIN;` for what it is, the query
  is answered with I in an open transaction (`GluedBegin`).
- A portal of transaction control executed again does not run again but moves the status once more
  (`SecondExecuteAgreesIff`, `ExecutedTwice`).
- While messages are dropped after an error, `Terminate` is dropped as well (`ErrorSilences`).
- The two paths differ on a text that cannot be prepared in a failed transaction, where only the batch
  prepares it, and on the error for a text with parameters (`PathsAgreeIff`).
- `rewriteConcat` also reads calls inside string literals. Such a literal is rewritten when its call is
  closed, in it (`LiteralWithCallIsRewritten`) or by a later literal: `('concat(' || f(')'))` loses its
  first literal (`LiteralLostInStatement`). When the call is never closed the literal survives and the
  rewriter stops, so that a real `CONCAT` reaches SQLite: `'concat(', CONCAT(a,b)` stays as it is
  (`LiteralStopsRewriting`). `LiteralSurvives` and `LowersInText` give the exact conditions anywhere
  in a statement, `RewriteLowers` for an expression as a whole.
- Five tokens of `TO_CHAR` formats change their meaning: `HH` becomes the hour of a 24-hour clock, right
  from one to twelve (`HourAgreesIff`); `HH12` becomes `%I`, for which `strftime` gives NULL, there being
  no 12-hour substitution; `YY` becomes the whole year, `MS` and `US` seconds with a fraction
  (`UnfaithfulTokens`). Formats of the other tokens keep their meaning (`FormatKeepsMeaning`).
- A statement whose greatest placeholder number is not the number of its parameters to the engine, such
  as one that uses `$2` without `$1` in an engine that counts one, cannot be described (`StatementDescribed`).
- The comment on `rewriteToChar` says that only calls whose format is not a literal are left. Others
  are left for three reasons. The format and the first argument of a translated call are copied: in
  `to_char(to_char(a,'MM'),'DD')` the inner call is left (`NestedCallIsLeft`). A call that is not
  translated is skipped as a whole: so it is in `to_char(to_char(a,'MM'),f)` (`SkippedCallIsLeft`). A
  call that is never closed stops the rewriter: the second call of `'to_char(', to_char(a,'MM')` is left
  (`UnclosedCallStops`). `CallsLeft` and `LiteralsLeft` count what is left of any text, and
  `OnlyRefusedLeft` gives the exact condition under which nothing else is.
- `parseInList` looks only at the first and last character of a list element (`LabelsIff`), so it
  takes the expression `'a' || 'b'` for a label (`ExpressionTakenForLabel`); a label is right exactly
  when every quote inside its element is doubled (`LabelIsRightIff`).
- `parseEnums` loses enums behind a `CHECK (` inside a default (`LostAfterDefault`) and behind a quoted
  column name with a parenthesis in it (`LostInQuotedName`).
- `pg_enum` OIDs collide once an enum other than the last has more than 10000 labels (`PgEnumOids`,
  `LargeEnumCollides`).

## Model

| member | source | states |
|---|---|---|
| Scanner.MatchParen | rewrite.go:303-329 | the loop with its look-ahead for doubled quotes returns what the toggling reference scanner finds |
| Scanner.MatchMeaning | rewrite.go:301-329 | the result is the first unquoted closing parenthesis at which the depth falls to zero, and -1 exactly when there is none |
| Scanner.EnclosedIsBalanced | rewrite.go:303-329 | the text between a parenthesis and its partner is balanced and string-closed |
| Scanner.SplitArgs | rewrite.go:333-363 | the loop returns the pieces between top-level commas |
| Scanner.JoinSplit | rewrite.go:331-363 | joining the pieces of any text with commas gives the text back |
| Scanner.PiecesHaveNoComma | rewrite.go:331-363 | no piece scanned alone has a top-level comma |
| Scanner.SplitJoin | rewrite.go:331-363 | splitting the join of arguments gives the arguments back |
| Scanner.ArgumentsOfCall | rewrite.go:251-255 | every argument text of a matched call is balanced and free of top-level commas |
| CallPattern.NextCall | rewrite.go:216-224 | search and matchParen from a position find the leftmost call of the rest of the text; there is no result when it is never closed, even if a later one is |
| CallPattern.FindMeaning | rewrite.go:159-161 | the search finds the first position at which a call can be read at a word boundary |
| CallPattern.FirstPrintedCall | rewrite.go:159-161 | a printed call after text without one is found with exactly its keyword, body and rest |
| Command.FindLeadingKeyword | command.go:34-42 | the loop over fields finds the first word of the statement behind white space and parentheses, in upper case |
| Classification.KeywordIff | command.go:32-42 | the leading keyword is a word exactly when it stands first behind white space and parentheses, in any letter case |
| Classification.RowReturningIff | command.go:44-54 | rows are returned exactly by a first word of seven or RETURNING between word boundaries, in any letter case |
| Classification.ControlIff | command.go:114-119 | transaction control is told by six first words |
| Classification.CountTags | command.go:64-71 | the tags of INSERT, UPDATE and DELETE in full |
| Classification.QueryTags | command.go:72-73 | everything that begins as a query is tagged SELECT with the rows sent |
| Classification.ControlTags | command.go:76-81 | START is tagged BEGIN, END is tagged COMMIT |
| Classification.DefinitionTags | command.go:74-75 | CREATE and the like name the kind of object when it is known |
| Command.BareFields | command.go:32-42 | trimming parentheses field by field finds the same word as trimming the whole statement |
| Command.WriteTagCounts | command.go:58-69 | the tag of INSERT is `INSERT 0 `, of UPDATE and DELETE the keyword and a blank, each followed by the decimal number of rows sent with RETURNING and of rows affected without it |
| Command.DecimalReadsBack | command.go:67-71 | a count written in decimal reads back as the count |
| Command.CountParameters | command.go:20-28 | the loop returns the highest placeholder index |
| Command.PlaceholderInText | command.go:15 | a placeholder is read with its whole number wherever it stands |
| Command.CountOfPrinted | command.go:17-28 | of a text printed with numbered placeholders the count is their greatest number that fits an int64 |
| Command.Highest | command.go:17-28 | the result bounds every placeholder in range and is one of them or zero |
| Concat.RewriteConcat | rewrite.go:244-269 | the loop terminates on every string; on return no call remains or the first one is never closed |
| Concat.PassShrinks | rewrite.go:244-269 | every pass lowers the number of occurrences of the word although it may lengthen the text |
| Concat.PassInFull | rewrite.go:255-267 | one pass in full: trimmed arguments in COALESCE(..,'') joined by the operator in parentheses, the text around them kept |
| Concat.PassOfTwo | rewrite.go:255-267 | of two arguments: (COALESCE(a,'') \|\| COALESCE(b,'')) |
| Concat.FixedPoint | rewrite.go:244-255 | a text is left alone exactly when it has no closed first call |
| Concat.PlaceholdersKept | rewrite.go:244-269 | the rewrite keeps the sequence of $n placeholders and so countParams, for every string |
| ConcatMeaning.LoweringKeepsValue | rewrite.go:240-243 | COALESCE chains have the value of CONCAT in every environment: NULL as empty against NULL-propagating \|\| |
| ConcatMeaning.ChainIsConcat | rewrite.go:240-243 | \|\| over operands made non-NULL is CONCAT of the operands |
| ConcatText.PassOfPrinted | rewrite.go:255-267 | one pass turns the first printed CONCAT, however nested, into the chain over its arguments |
| ConcatText.RewritesHalf | rewrite.go:240-269 | inside any text that is clear before it, repeated passes lower an expression up to its first literal with a readable call head |
| ConcatLiterals.RewritesInPlace | rewrite.go:240-269 | they lower all of it when no such literal is printed before a CONCAT |
| ConcatLiterals.RewriteLowers | rewrite.go:240-269 | the rewritten text of an expression is the text of the lowered one exactly when no such literal is printed before a CONCAT and the result has no closed first call |
| ConcatLiterals.RewriteKeepsMeaning | rewrite.go:240-269 | exactly then, and always without such literals, the rewrite yields the text of an expression without CONCAT of the same value |
| ConcatLiterals.LowersInText | rewrite.go:240-269 | wherever an expression stands in a text, it comes out lowered exactly when no such literal is printed before a CONCAT of it and the lowered text holds no call head or the first call of the text is never closed |
| ConcatLiterals.DifferenceStays | rewrite.go:244-267 | a parenthesis written in place of a letter is never taken back by later passes |
| ConcatLiterals.LiteralSurvives | rewrite.go:244-267 | anywhere in a text, a literal survives exactly when no call head can be read in it or the first call is never closed, and then the whole text stays |
| ConcatLiterals.LiteralWithCallIsRewritten | rewrite.go:244-267 | the literal 'concat(a)' is changed |
| ConcatLiterals.LiteralLostInStatement | rewrite.go:244-267 | the literal 'concat(' survives alone and is lost in ('concat(' \|\| f(')')) |
| ConcatLiterals.LiteralStopsRewriting | rewrite.go:251-254 | 'concat(', CONCAT(a,b) is left as it is |
| ToChar.TakesLongestToken | rewrite.go:187-207 | the format replacer always takes a longest token that matches |
| ToChar.TokenAlone | rewrite.go:187-207 | every token alone becomes its own replacement; none is taken apart by an earlier one |
| ToCharMeaning.TokensInFull | rewrite.go:187-207 | all 14 tokens and what each becomes |
| ToCharMeaning.FormatKeepsMeaning | rewrite.go:182-207 | strftime with a translated format of faithful tokens and gaps gives the text TO_CHAR gives, at every time |
| ToCharMeaning.CallKeepsMeaning | rewrite.go:225-233 | the call with such a format becomes strftime of the same expression with a format of the same meaning |
| ToCharMeaning.HourAgreesIff | rewrite.go:203 | HH agrees exactly from one to twelve o'clock |
| ToCharMeaning.UnfaithfulTokens | rewrite.go:190-206 | HH12 gives NULL; YY, MS and US never agree |
| ToChar.TranslationIff | rewrite.go:225-229 | a call is translated exactly when it has two arguments and the second stands in quotes |
| ToChar.ReplaceJoined | rewrite.go:187-207 | formats joined by a character of no token are translated one by one |
| ToChar.RewriteToChar | rewrite.go:213-238 | the loop over a text it keeps replacing equals one pass that never reads its own output, and ends because the unread rest shrinks |
| ToChar.TranslatesEachCall | rewrite.go:209-238 | text outside calls is unchanged and each outermost call is replaced by its translation or left as it is |
| ToChar.LiteralFormat | rewrite.go:225-233 | a call with a literal format, in any layout, becomes strftime with the arguments exchanged and the translated format as one literal |
| ToChar.ReplaceKeepsQuoting | rewrite.go:187-230 | translating a format commutes with doubling its quotes |
| ToChar.ReadIsSound | rewrite.go:213-238 | every text is a sequence of texts and first calls, ending where no call or an unclosed one is found |
| ToCharLeft.CallsLeft | rewrite.go:209-238 | how many calls are left of any text: the outermost ones not translated, those inside the format and first argument of a translated call or the body of another, and all from the first unclosed one on |
| ToCharLeft.LiteralsLeft | rewrite.go:209-238 | how many calls with a literal format are left of any text: those that begin inside the format or first argument of a translated call or the body of another, and those from the first unclosed one on |
| ToCharLeft.OnlyRefusedLeft | rewrite.go:209-212 | of any text, only outermost calls without a literal format are left exactly when no call stands inside an outermost one and none is unclosed |
| ToCharLeft.NestedCallIsLeft | rewrite.go:225-233 | in to_char(to_char(a,'MM'),'DD') the inner call is left |
| ToCharLeft.SkippedCallIsLeft | rewrite.go:236 | in to_char(to_char(a,'MM'),f) the inner call is left |
| ToCharLeft.UnclosedCallStops | rewrite.go:221-223 | in 'to_char(', to_char(a,'MM') the second call is left |
| Literal.HalveDoubled | catalog.go:80-82 | unescaping quotes undoes escaping for every text |
| Literal.DoubledHalved | enum.go:192 | escaping undoes unescaping exactly when every quote of the text is doubled |
| Literal.LiteralIsArgument | catalog.go:78-82 | a literal over any characters is one balanced argument |
| EnumLabels.ParseInList | enum.go:165-197 | the method decides membership tests and returns column and labels |
| EnumLabels.LabelsIff | enum.go:187-193 | a list is accepted exactly when every trimmed element begins and ends in a quote |
| EnumLabels.LabelIsRightIff | enum.go:187-193 | the label of an accepted element, printed as a literal, is the element exactly when every inner quote is doubled |
| EnumLabels.ExpressionTakenForLabel | enum.go:187-193 | the expression 'a' \|\| 'b' is accepted with the label a' \|\| 'b |
| EnumLabels.HeadOfTest | enum.go:118-122 | the head expression reads back a column in any of its four forms and the place of the list |
| EnumLabels.HeadMeans | enum.go:118-122 | whatever the head expression accepts is one of the four column forms, blanks and IN |
| EnumLabels.TestMeans | enum.go:161-197 | whatever is accepted as a membership test is a column, IN, a balanced list and white space to the end |
| EnumLabels.InListRoundTrip | enum.go:161-197 | parsing a printed test gives exactly its column and labels, in any layout and over any characters |
| EnumLabels.PlainRoundTrip | enum.go:161-197 | the same for a bare column and literals joined by commas |
| EnumTables.ParseEnums | enum.go:126-159 | the loop terminates and returns the enums of the remaining text in order |
| EnumTables.ReadIsSound | enum.go:126-140 | every text is a sequence of texts and first CHECK clauses, ending where none or an unclosed one is found |
| EnumTables.EnumsRoundTrip | enum.go:124-159 | any statement yields the first clause of each lower-cased column, printed tests with exact labels, and nothing from an unclosed clause on |
| EnumsLost.LostAfterDefault | enum.go:126-140 | a default that holds CHECK ( makes the clause after it unread |
| EnumsLost.LostInQuotedName | enum.go:131-140 | a quoted column name with a parenthesis makes its clause and the next unread |
| EnumTables.BareIsBalanced | enum.go:118-122 | a bare column name never disturbs the parenthesis matcher |
| EnumTables.EntryMeans | enum.go:151-156 | table and column as written, type name of both in lower case with an underscore |
| EnumTables.FirstsAreFirst | enum.go:124-157 | an enum is reported exactly when its clause is the first of its column |
| EnumTables.FirstsAreDistinct | enum.go:146-150 | no column is reported twice, whatever its case |
| EnumCatalogs.EnumCatalog.Setup | enum.go:88-111 | the three temp tables hold the rows of all enums of all tables |
| EnumCatalogs.TypeOids | enum.go:25-28 | type OIDs are consecutive from 90000, distinct, apart from the static ones, with one column row each |
| EnumCatalogs.RowsAreLabels | enum.go:103-109 | the label rows are exactly the labels, numbered from one within each type |
| EnumCatalogs.RowsAreSorted | enum.go:45-49 | the rows come in strict key order, so no key repeats |
| EnumCatalogs.PgEnumOids | catalog.go:281-284 | pg_enum OIDs are pairwise distinct exactly when every enum but the last has at most 10000 labels |
| EnumCatalogs.LargeEnumCollides | catalog.go:281-284 | a CREATE TABLE whose first enum has more than 10000 labels and whose second has one makes OIDs collide |
| Session.ScanRows | server.go:510-520 | the row loop collects the rows or stops at the first row or cursor failure |
| Session.BoundPortal.Execute | server.go:854-883 | the statement of a portal runs at most once and its outcome is remembered |
| Session.BoundPortal.Close | server.go:885-890 | the cursor is closed and forgotten |
| Session.Conn.ExecSimpleQuery | server.go:477-488 | new state and replies of a statement without rows |
| Session.Conn.StreamSimpleQuery | server.go:491-526 | new state and replies of a statement with rows; its cursor is closed on every path |
| Session.Conn.HandleQueryMessage | server.go:439-473 | new state and replies of a simple query, in and outside a failed block |
| Session.Conn.FailSimpleQuery | server.go:531-536 | an error fails an open block and is answered with the new status |
| Session.Conn.FailExtendedQuery | server.go:620-626 | an error fails an open block and starts the skipping |
| Session.Conn.NoteCompleted | server.go:540-547 | the status follows the keyword of a completed statement |
| Session.Conn.RollbackFailedBlock | server.go:553-556 | the block is rolled back and the session idle |
| Session.Conn.HandleParseMessage | server.go:630-651 | a statement replaces the one of its name, whose handle is closed |
| Session.Conn.HandleBindMessage | server.go:655-675 | a portal replaces the one of its name, whose cursor is closed |
| Session.Conn.DescribeStatementByName | server.go:713-729 | columns are read from a cursor that is opened and closed without running |
| Session.Conn.HandleDescribeMessage | server.go:679-708 | new state and replies of Describe |
| Session.Conn.StreamNamed | server.go:754-780 | rows are sent, the cursor closed, the completion noted |
| Session.Conn.HandleExecuteMessage | server.go:733-781 | new state and replies of Execute |
| Session.Conn.HandleCloseMessage | server.go:785-801 | a named statement or portal is closed and forgotten |
| Session.Conn.ServeConn | server.go:238-300 | the receive loop performs the run of the state machine over its messages |
| Session.Conn.CloseAll | server.go:902-910 | all cursors and statements of the session are closed |
| Session.Serve | server.go:206-230 | a connection from acceptance to close leaves no statement and no cursor open, whatever it was sent |
| Names.Parsed | server.go:630-651 | an accepted Parse gives the name text, parameter count and handle; the old handle is closed, all else stays |
| Names.BindsValues | server.go:655-675 | an accepted Bind gives the portal just the values sent; the old cursor is closed, all else stays |
| Names.StatementClosed | server.go:785-793 | Close of a statement forgets the name and closes its handle; all else stays |
| Names.PortalClosed | server.go:794-799 | Close of a portal forgets the name and closes its cursor; all else stays |
| Names.UnknownNames | server.go:656-741 | messages for unknown names or types fail with the error that says so and change nothing else |
| Names.RunSparesStatement | server.go:630-801 | over any run a statement that is not named stays as it is, and none appears |
| Names.RunSparesPortal | server.go:655-801 | the same for portals |
| Names.BindAfterClose | server.go:656-659 | a Bind of a closed statement fails unless it is parsed again, whatever comes between |
| Names.ExecuteAfterClose | server.go:734-738 | an Execute of a closed portal fails unless it is bound again |
| Names.BoundValuesRun | server.go:661-883 | the values of a Bind are those its statement runs with at the Execute, whatever comes between |
| Resources.StepConserves | server.go:641-649 | every message keeps: open statements are those of the map, open cursors those of portals, none shared |
| Resources.NothingLeaks | server.go:902-910 | after any run the books balance and closing the connection leaves nothing open |
| Executions.AtMostOnce | server.go:835-837 | over any run every bound portal runs in the engine at most once |
| Executions.DeliveryRuns | server.go:750-771 | rows are delivered only by the Execute in which the statement runs |
| Executions.RowsDeliveredOnce | server.go:754-771 | in any run the rows of a portal are delivered by at most one Execute |
| Replies.StepAnswers | server.go:246-300 | every message that is not dropped gets just its own replies, or one error and skipping |
| Replies.ReadyBalance | server.go:246-300 | over any run ReadyForQuery replies equal Syncs plus simple queries not dropped |
| Replies.ErrorSilences | server.go:246-252 | an extended error is the last reply until Sync, and what stands between may be deleted or exchanged |
| Transactions.FailedIsQuiet | server.go:456-465 | E is entered only from T and left only to I; during E nothing runs but the final ROLLBACK and the database stays |
| Transactions.StatusIsTrue | server.go:285-289 | at every ReadyForQuery of a disciplined run I means nothing open and all committed, T an open transaction, E one that is open or rolled back to the content where its block began; in T and E nothing was committed since then |
| DisciplinedClients.StandardIsDisciplined | server.go:670-781 | a client that groups Bind, Describe and Execute of each portal is disciplined, whatever the engine does |
| Transactions.FailedLeavesNoTrace | server.go:549-556 | a block that ends from E leaves the content of its BEGIN, whether or not the engine had rolled back itself |
| Transactions.StepSound | server.go:538-556 | every allowed message keeps status, engine and content in step |
| DisciplinedClients.FailingBlock | server.go:453-465 | BEGIN, a failing statement, and COMMIT or ROLLBACK alike: the content is what it was, however the statement failed |
| TransactionLimits.QueryAgreesIff | server.go:477-526 | a simple query of any statement keeps the status true exactly when it will fail, read off the state before it, or engine and keyword move the transaction alike |
| TransactionLimits.DescribeAgreesIff | server.go:701-704 | describing any unexecuted portal keeps the status true exactly when it returns rows, cannot run, fails in the engine, or moves no transaction |
| TransactionLimits.DescribeControlAgreesIff | server.go:701-704 | of tracked transaction control: exactly when it cannot run or fails in the engine |
| TransactionLimits.ExecuteAgreesIff | server.go:733-781 | executing any portal, run before or not, with an open cursor or not, keeps the status true exactly when it fails or engine and keyword move the transaction alike |
| TransactionLimits.SecondExecuteAgreesIff | server.go:750-777 | executing completed transaction control again keeps the status true exactly when its keyword does not move it |
| Departures.DescribedBegin | server.go:701-704 | Parse BEGIN, Bind, Describe, Sync ends in ReadyForQuery I with a transaction open |
| Departures.CommentedCommitDiverges | server.go:477-526 | after BEGIN, a simple query of COMMIT with the word returning in a comment ends in T with nothing open; the extended path ends in I |
| Departures.GluedBegin | server.go:477-488 | a simple query of BEGIN; ends in ReadyForQuery I with a transaction open when the engine reads it |
| Departures.ExecutedTwice | server.go:750-777 | a portal of BEGIN executed again after COMMIT ends in ReadyForQuery T with nothing open |
| Protocols.SimpleEnds | server.go:439-526 | how any simple query that is not blank ends: database, status, statements run, rows and completion or error |
| Protocols.ExtendedEnds | server.go:630-781 | how the batch Parse, Bind, Describe, Execute, Sync ends for any text and any values |
| Protocols.PathsAgree | server.go:439-781 | both paths leave the same database, have run the same statements and give the same rows and completion or error; the status agrees exactly unless a row-returning transaction keyword succeeds |
| Protocols.PathsAgreeIff | server.go:439-781 | for any text that is not blank, prepared or not, both paths end alike exactly under a condition on the state before |
| Transcripts.CollectMeans | server.go:510-520 | the data rows sent are the rows of the cursor in order; the first failure is the one reported |
| Transcripts.SimpleSays | server.go:439-526 | the replies to any simple query that is not blank, one by one |
| Transcripts.BlankQuery | server.go:445-450 | a blank query is only acknowledged, in any state |
| Transcripts.ExtendedSays | server.go:630-781 | the replies to any batch with any values, one by one |
| Transcripts.StatementDescribed | server.go:713-729 | Describe of a statement gives its parameters and columns and changes nothing; it fails when the counts of parameters differ |
| Transcripts.FailureStored | server.go:854-876 | a portal that fails keeps its error |
| Transcripts.FailureRemembered | server.go:855-857 | it fails in the same way ever after without running again |
| Transcripts.CompletionRepeated | server.go:748-780 | a portal that has run is described and completed again without running |
| ProtocolRuns.RunsAgree | server.go:439-781 | over any list of statements in which the paths meet, simple queries and batches report the same outcome and status statement by statement and leave the same database and statements run |
| ProtocolRuns.SameForClients | server.go:439-781 | the same from a new connection for any list of tracked statements |

## Left out

- Sockets, message encoding, logging, the accept loop and the connection registry: messages are values and writes never fail.
- Startup and authentication: a run begins with a fresh, idle session.
- SQL execution itself: running a statement is an arbitrary function of content, text and arguments; the whole effect of a cursor is taken when its first row is asked for.
- Cursors over one statement handle are independent here; in the SQLite driver they share one compiled statement, so describing two portals of one statement makes them share their arguments.
- Savepoints, `ROLLBACK TO`, several statements in one text and keywords glued to punctuation: excluded by `Tracked` in the run theorems about transactions.
- The other substitutions of `rewrite`, `translateDDL` and `rewriteUnnest`: each is one regular expression; together they are the parameter `Env.rewrite`.
- Virtual-table modules, view texts, type-name tables and text encoders: constant tables and short case analyses.
- The SQLSTATE of an error: errors keep their cause instead.
- Column types in row descriptions: a column is a name and a number.
- Unicode case mapping beyond ASCII and the letters that map or fold to ASCII ones; text is a sequence of characters, not of UTF-8 bytes.
- Session.Serve: the startup exchange and the statements it issues come before the run that is modelled.
- Values other than NULL and text in the meaning of CONCAT: the conversion of numbers to text is not modelled.
- Calendar arithmetic, and the template patterns and substitutions of `TO_CHAR` and `strftime` that the translator does not write; times are in UTC.
- EnumCatalogs.EnumCatalog.Setup: failures of creating, reading and inserting are not modelled; the rows are appended; no key repeats, so the primary key cannot refuse one.

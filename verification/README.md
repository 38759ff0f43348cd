# What the client promises, proved

This project models the parts of the client in which a mistake would be hard to
see, and proves what they promise.

- **The scanner and what is built on it** (`Lexer`, `LexerLaws`, `Constructs`,
  `Quoting`, `Positions`, `Statements`, `StatementLaws`, `Kinds`, `Template`,
  `TemplateLaws`, `Fillings`, `Approval`). The reference is a plain one: a text is
  cut into lexemes from the left (`Lex`), and `Constructs` says what is cut from
  what each construct is. The scanner's loops are proved to report that cutting.
  What follows are facts about cuttings: validation keeps the statement, a
  server's positions map back, and filling in a template cannot change what kind
  of statement it is. `Kinds` and `Fillings` say which kind that is, and which
  value stands where, by the words and the values alone.
- **The store** (`Store`, `Exchanges`, `Answers`, `Runtime`, `Tree`, `TreeLaws`,
  `Opening`, `Pages`). `Store` gives the application state as a value and what each
  action and event makes of it; `Exchanges` and `Answers` say what is asked of the
  world for each action, and what is shown of its answer.
  `Runtime` is the object that changes it in place, its loop included. Every
  method of it is proved equal to the function of its name in `Store`; `Apply` and
  `Handle` call them all, and the table lists those whose work in place is more
  than a branch. `Served` puts the object and the laws together.
- **The store over whole runs** (`Runs` and the laws about it: `Rows`, `Frames`,
  `Loading`, `Sessions`, `Closing`, `Trees`, `Paging`, `Queries`, `Consent`,
  `Recorder`, `HistoryLaws`, `Tellings`, `Attribution`, `Overlap`, `Barrier`).
  `Runs` is a transition system of callers that dispatch, tasks that reply, a
  library that writes rows, and the loop that takes from either queue in any
  order. Replies may be stale, superseded, cancelled or to a closed connection:
  any task ever spawned may reply once at any later time, aborted or not, which is
  more than the program allows. The laws are about every state of every run.
- **`Timestamps`** and **`Instants`**, the exact scaling of a decimal to
  nanoseconds, against the number the text spells and against the texts that
  instants are written as.

What is asked of the world outside is written where it is used: a reply answers
the task it came from (`Store.Fits`, `Runs.RepliesTo`); a driver answers a page
with its first rows and fixed columns (`Paging.Honest`), and, for paging to end,
with something while there is something (`Paging.Generous`); the library answers
once for each row it was asked to write (`Runs.RowAnswered`).

Texts are sequences of `char`. What is proved of the scanner and of quoting holds
of all of them, so of a text read as its UTF-8 bytes, which is how the program
scans it: no unit the scanner looks for is part of a longer character. Trimming
and positions are about characters, and so is what builds on them.

Three things are true only under a condition, and the condition is exact.

- Validating what was kept gives it back if and only if trimming kept some code
  (`StatementLaws.ValidationIsAFixpoint`). `trim` drops Unicode white space and
  the scanner skips only ASCII white space, so a lone vertical tab is accepted as
  a statement and kept as nothing.
- A quoted name is one region for every name if and only if the quote style and
  the escaping belong together (`Quoting.NamesAreSafeExactlyWhenMatching`).
- An outcome that is held for a row is never dropped untold if and only if two
  things never happen (`Attribution.OutcomesAreLostExactlyWhen`): an approval
  begins a run of the query while a row of it is being written
  (`Overlap.AnOverlapTellsTheWrongRow`); and the reply of a task that was given up
  on is read while its row is being written, and says something else than what the
  row was to be told (`Overlap.ALateReplyReplacesACancel`). The second leaves the
  row with another outcome of its own run. Only the first can leave it with one of
  another run: while it never happens every row is told how its own run ended
  (`Attribution.RowsAreToldOfTheirOwnRun`), and when it first does, the row that
  was being written is never told its own outcome
  (`Attribution.RowsAreToldInTimeExactlyWhenApart`). The comment on `recorded`
  speaks only of a forgotten query there; the code also takes that branch after an
  approval that came too early.

Two things are deliberately not claimed, because the code does otherwise: a
closed connection may turn to failed when a late connect error arrives, and a
cancelled query, node or definition may still take a late answer.

## Model

| member | source | states |
|---|---|---|
| Lexer.Scan | crates/sqlake-core/src/sql.rs:597-719 | For every text and dialect the loop reports exactly what the independent cutting of the text into lexemes says it should (words, semicolons, code, ranges stepped over), and stops with the construct that never closes exactly where that cutting does. |
| Lexer.ScanDollarTag | crates/sqlake-core/src/sql.rs:725-739 | Finds the `$tag$` that opens at a place, or that none does: what may be a tag, the empty one included, is what `Constructs.ADollarBodyIsOneRegion` and `ALoneDollarIsCode` say. |
| Lexer.ScanQuoted | crates/sqlake-core/src/sql.rs:607-649 | Finds where quoted text ends: doubled quotes go on, a backslash takes the next unit with it in that dialect only, running off the end is an error. |
| Lexer.ScanWord | crates/sqlake-core/src/sql.rs:698-709 | Finds the end of the longest bare word. |
| Lexer.ScanComment | crates/sqlake-core/src/sql.rs:651-673 | A line comment ends after its newline or with the text; a block comment does not nest and must close. |
| Lexer.ScanDollar | crates/sqlake-core/src/sql.rs:674-693 | A dollar body ends with its own tag; a `$` that opens nothing is code. |
| Constructs.ADollarBodyIsOneRegion | crates/sqlake-core/src/sql.rs:674-739 | For every tag that is empty or an identifier: the tag between dollars, a body that does not close it, and the tag again are exactly one quoted lexeme, whatever follows. `$$` opens a body. |
| Constructs.ADollarBodyMayNeverEnd | crates/sqlake-core/src/sql.rs:674-693 | A tag that never stands again is a dollar body that never closes. |
| Constructs.ALoneDollarIsCode | crates/sqlake-core/src/sql.rs:725-739 | A dollar with no such tag behind it is one unit of code. |
| Constructs.ALineComment | crates/sqlake-core/src/sql.rs:651-659 | Two dashes comment out the rest of their line with its break, or the rest of the text. |
| Constructs.ABlockComment | crates/sqlake-core/src/sql.rs:660-673 | A block comment ends where it is first closed, whatever was opened inside it, and is an error if never. |
| Constructs.AQuoteClosesAtTheNext | crates/sqlake-core/src/sql.rs:607-649 | Quoted text with nothing doubled or escaped in it ends at the next quote like its own; with none it never closes, as a string or as a name. |
| Constructs.APairGoesOn | crates/sqlake-core/src/sql.rs:607-643 | Behind a doubled quote, and in the backslash dialect behind a backslash and any one unit, quoted text goes on as if the pair were not there. |
| Constructs.AnIdentifierIsAWord | crates/sqlake-core/src/sql.rs:698-709 | An identifier with no more of its units behind it is one bare word. |
| Constructs.OneUnit | crates/sqlake-core/src/sql.rs:597-719 | Any other unit stands for itself: the semicolon, the five units of white space, and everything else as code. |
| LexerLaws.FirstPrefix | crates/sqlake-core/src/sql.rs:597-719 | A lexeme that ends inside the front of a text is read there whatever follows. |
| LexerLaws.FirstMerge | crates/sqlake-core/src/sql.rs:636-641 | Quoted text directly before text quoted alike is read as one region: the doubled-quote rule. |
| LexerLaws.CutThenCut | crates/sqlake-core/src/sql.rs:597-719 | Cutting a text at a boundary and cutting the rest at a boundary is cutting it at the later boundary: nothing before a boundary depends on what is behind it. |
| LexerLaws.LexMerged | crates/sqlake-core/src/sql.rs:636-641 | No scan has two regions of one quote side by side: they have been merged already. |
| LexerLaws.Join | crates/sqlake-core/src/sql.rs:597-719 | Replacing what stands behind a boundary by anything that opens with a quote and scans keeps the lexemes before it, and merges at most the two regions that meet. |
| Quoting.LiteralRoundTrip | crates/sqlake-core/src/literal.rs:36-42 | A quoted value is one region under the dialect it was quoted for, and undoing doubled quotes and backslash pairs gives the value back. |
| Quoting.IdentRoundTrip | crates/sqlake-core/src/ident.rs:28-39 | The same of a quoted name, for the dialect pairs the drivers form. |
| Quoting.StandsAloneBefore | crates/sqlake-core/src/literal.rs:36-42 | Quoted text is consumed whole, and no more, whatever follows that is not the same quote. |
| Quoting.PlainTextMeansItself | crates/sqlake-core/src/literal.rs:36-42 | Text with nothing in it to double or escape is quoted as it stands, and means itself. |
| Quoting.QuotingIsInjective | crates/sqlake-core/src/ident.rs:28-39 | Two values, or two names, quoted to one text are one value, or one name. |
| Quoting.NamesAreSafeExactlyWhenMatching | crates/sqlake-core/src/ident.rs:28-39 | Every name is one region if and only if the quote style and the escaping belong together; the mixed pairs fail, each with a name that shows it. |
| Quoting.MixedDoubleQuote | crates/sqlake-core/src/ident.rs:28-39 | Double quotes where a backslash escapes: the name that is one backslash is read as a name that never closes. |
| Quoting.MixedBacktick | crates/sqlake-core/src/ident.rs:28-39 | Backticks where a backslash does not escape: the name that is one backtick is read as a name that never closes. |
| Positions.OfOffset | crates/sqlake-core/src/sql.rs:256-283 | The loop answers exactly the offsets from one to the length. Below 2^32 units the line is one more than the newlines before that character, and the column is how far it stands behind the last of them. |
| Positions.AfterTextJoin | crates/sqlake-core/src/sql.rs:271-283 | Counting on from where a front ends is counting through the whole, while counts fit 32 bits. |
| Positions.ErrorsLandInTheSource | crates/sqlake-core/src/sql.rs:167-181 | A position counted from a piece of a text, moved by where the piece starts, is the position of the same character of the text. |
| Statements.StatementSpans | crates/sqlake-core/src/sql.rs:529-559 | The scan that splits at semicolons finds exactly the ranges between semicolons that hold code. |
| Statements.Parse | crates/sqlake-core/src/sql.rs:92-113 | Accepts a text of one statement and keeps it trimmed, with where it starts; refuses none or several, and what does not scan. |
| Statements.Kind | crates/sqlake-core/src/sql.rs:132-159 | The loop classifies by the bare words alone, as `Kinds.ReadsExactlyWhen` spells out. |
| Kinds.ReadsExactlyWhen | crates/sqlake-core/src/sql.rs:132-159 | For every text: it reads if and only if its first bare word is one of the six openers and no bare word behind it is one of the eighteen writing words, each in any letter case. The words are written out and compared unit by unit. |
| Kinds.AWritingWordWrites | crates/sqlake-core/src/sql.rs:149-157 | One writing word anywhere behind another bare word is enough to make it a write, a `with` that deletes included. |
| StatementLaws.SpansAreStatements | crates/sqlake-core/src/sql.rs:529-559 | Each range found holds code and scans to no semicolon of its own, its words being those of the text there. |
| StatementLaws.AcceptedExactlyWhen | crates/sqlake-core/src/sql.rs:92-113 | A text is accepted if and only if it scans and exactly one of the parts its semicolons divide it into says anything; the two refusals are none and several. The dividing does not use the loop or its ranges. |
| StatementLaws.KeptScans | crates/sqlake-core/src/sql.rs:92-113 | What is kept of an accepted text scans, reports no semicolon, and has the words of the whole text. |
| StatementLaws.ValidationIsAFixpoint | crates/sqlake-core/src/sql.rs:92-113 | What is kept is accepted again as the same text if and only if some code of the statement lies inside what trimming keeps; otherwise it is refused as empty. |
| StatementLaws.PlainTextIsAFixpoint | crates/sqlake-core/src/sql.rs:92-113 | On every text without white space that `trim` drops and the scanner calls code, validation is a fixpoint. |
| StatementLaws.AVerticalTabIsAccepted | crates/sqlake-core/src/sql.rs:106-110 | The failing case: a lone vertical tab is accepted, and kept as nothing. |
| StatementLaws.KindIsOfTheSource | crates/sqlake-core/src/sql.rs:132-159 | The kind of what is kept is the kind of the words of the whole text. |
| StatementLaws.PositionsMapBack | crates/sqlake-core/src/sql.rs:167-181 | For every accepted text, a server position in the statement is the same character of the text, at every offset that fits 32 bits. |
| StatementLaws.SkippedAreOrdered | crates/sqlake-core/src/sql.rs:574-592 | The ranges stepped over are in bounds, in order, and apart. |
| Template.Parse | crates/sqlake-core/src/template.rs:233-281 | The loop finds exactly the placeholders of the body, outside comments, and refuses one in a string, one name used two ways, a bad name, and one that never closes. |
| Template.SkippedOf | crates/sqlake-core/src/template.rs:234-245 | Keeping only the ranges stepped over answers every question about what a place is inside of. |
| Template.Bind | crates/sqlake-core/src/template.rs:172-210 | The loop builds the body with every placeholder replaced by its own quoted value (`Fillings.EachValueStandsInItsPlaces` says which), and refuses an unwanted or a missing name. |
| Template.Placeholders | crates/sqlake-core/src/template.rs:148-156 | Each name once, every placeholder there is, and in the order in which they are first asked for. |
| Fillings.EachValueStandsInItsPlaces | crates/sqlake-core/src/template.rs:172-210 | When distinct names bind: the bound text is the body with one text in the place of each placeholder, and the text in the place of a name is one quoted region that means the very value given for that name, with the quote of a value or of a name as the placeholder asks; the lexemes are those of the body around them. |
| Fillings.ReadExactlyAsWritten | crates/sqlake-core/src/template.rs:283-311 | What stands between the braces is a placeholder if and only if it is a name, or `value:` and a name, which are values, or `ident:` and a name, which is a name. |
| Fillings.PrefixedIs | crates/sqlake-core/src/template.rs:283-311 | What is behind the first colon is the name and what is before it the kind: an unknown kind, no name, and a bad name are refused in that order. |
| Fillings.FoundAsWritten | crates/sqlake-core/src/template.rs:233-281 | Every placeholder found stands in the body between braces as its name and kind are written, closed at the first pair, and no name is used two ways. |
| Fillings.NothingIsMissed | crates/sqlake-core/src/template.rs:233-281 | In an accepted body without comments every pair of opening braces lies in a placeholder that was found. |
| Fillings.NotInAString | crates/sqlake-core/src/template.rs:258-265 | A placeholder inside a string is refused, and named. |
| Fillings.NotInAComment | crates/sqlake-core/src/template.rs:258-260 | One inside a comment is no placeholder. |
| Fillings.BracesMustClose | crates/sqlake-core/src/template.rs:250-253 | Opening braces that never close are refused. |
| Fillings.ARefusalNamesTheName | crates/sqlake-core/src/template.rs:178-196 | A refused binding names the first name given that is not asked for, or the first one asked for that was not given. |
| TemplateLaws.BindingPreservesStructure | crates/sqlake-core/src/template.rs:172-210 | For every body that binds, every values and both dialect pairs: the bound text scans, to the body's lexemes with each placeholder one quoted region and neighbours quoted alike merged, and is as many statements as the body. |
| TemplateLaws.ValuesAddNoWords | crates/sqlake-core/src/template.rs:186-209 | The bare words of the bound text are those of the body outside its placeholders, whatever the values. |
| TemplateLaws.ValuesCannotChangeTheKind | crates/sqlake-core/src/template.rs:172-210 | No choice of values changes whether a body is one statement, nor whether that statement reads or writes. |
| TemplateLaws.BindsExactlyWhatIsAsked | crates/sqlake-core/src/template.rs:172-196 | A body binds if and only if it parses and the names given are the names it asks for. |
| Approval.OnlyTheEstimatedRuns | crates/sqlake-app/src/usecase/run_query.rs:58-97 | Without a person: what is executed is the one statement of the text, estimated first, a read on a read-only connection, and within every ceiling in bytes that was given. |
| Approval.ARefusalRunsWhatWasRefused | crates/sqlake-app/src/usecase/run_query.rs:111-124 | With a yes: nothing ran before it, and what runs is the statement that was estimated, at that estimate, and still only a read where only reads may run. |
| Approval.AWriteIsNeverRun | crates/sqlake-core/src/sql.rs:449-476 | A text whose first bare word is no opener, or with a writing word behind it, is never executed on a read-only connection, whatever its cost and whatever the ceiling. |
| Approval.WhatMayRunRuns | crates/sqlake-app/src/usecase/run_query.rs:58-97 | The other way: a single statement that was priced, that may run on the connection and is in no ceiling's way is executed, and its rows come back with the price. |
| Approval.ErrorsAreShownInTheText | crates/sqlake-app/src/usecase/run_query.rs:58-97 | An error the server places in the statement it was sent is shown on the same character of the text that was written. |
| Timestamps.AnswersAreExact | crates/sqlake-driver-bigquery/src/value.rs:197-221 | Every answer is the number the text spells, times ten to the ninth, truncated towards zero; "-0.5" and its like included. |
| Timestamps.SpellingsAgree | crates/sqlake-driver-bigquery/src/value.rs:197-221 | Two spellings of one number that are both answered are answered alike. |
| Timestamps.WhatIsAnswered | crates/sqlake-driver-bigquery/src/value.rs:197-221 | Only decimals are answered, and texts with nothing before the point and a sign behind it. |
| Instants.EveryInstantComesBack | crates/sqlake-driver-bigquery/src/value.rs:197-221 | Every whole number of nanoseconds that fits 128 bits, written out as seconds with nine decimals, is answered with itself, before the epoch as after it. |
| Instants.SignsSayWhatTheySay | crates/sqlake-driver-bigquery/src/value.rs:203-219 | For every unsigned decimal that is answered, a plus in front answers the same number and a minus the same number below zero. |
| Instants.ANegativeExponentMovesLeft | crates/sqlake-driver-bigquery/src/value.rs:203-219 | A decimal with the exponent `-k` is answered as the one with its point k places to the left. |
| Instants.APositiveExponentMovesRight | crates/sqlake-driver-bigquery/src/value.rs:203-219 | One with the exponent k, with a plus or without, as the one with its point k places to the right. |
| Instants.AnsweredExactlyWhenItFits | crates/sqlake-driver-bigquery/src/value.rs:197-221 | A decimal is answered if and only if its digits, its exponent, the shift, the power of ten and the product all fit, and the answer is the product or the quotient under the sign. |
| Pages.RowAt | crates/sqlake-app/src/pages.rs:65-74 | Going through the pages finds the row of that index in the pages end to end, and none past the end. |
| Pages.AppendIsConcat | crates/sqlake-app/src/pages.rs:101-118 | An accepted page adds its rows and its count; an empty one adds no page; the sample does not change. |
| Pages.FirstPageIsItself | crates/sqlake-app/src/pages.rs:31-98 | A first page holds its own rows, and its sample is as many of them as are asked for. |
| Pages.FitsExactlyWhen | crates/sqlake-app/src/pages.rs:101-118 | A chain of pages is accepted if and only if every page has the very columns of the first. |
| Pages.PagesRefineTheFlatSequence | crates/sqlake-app/src/pages.rs:31-118 | After any chain of accepted pages the rows are the pages end to end and the count is theirs. |
| Tree.TreeState.Install | crates/sqlake-app/src/tree.rs:107-112 | Replaces everything by the roots and their leaves. |
| Tree.TreeState.RecordLeaves | crates/sqlake-app/src/tree.rs:115-121 | The loop marks exactly the children without children. |
| Tree.TreeState.Flip | crates/sqlake-app/src/tree.rs:132-154 | In place, what toggling makes of the tree, and whether the caller has to fetch. |
| Tree.TreeState.Open | crates/sqlake-app/src/tree.rs:162-167 | In place, the same for expanding, which never closes. |
| Tree.TreeState.Finish | crates/sqlake-app/src/tree.rs:190-204 | In place, what an answer or a failure makes of a node and of its leaves. |
| Tree.TreeState.WalkInto | crates/sqlake-app/src/tree.rs:221-251 | The recursion pushes exactly the rows beneath a node, on any catalogue, and gives back the open set as it was. |
| Tree.TreeState.View | crates/sqlake-app/src/tree.rs:208-213 | The flattening of the whole tree. |
| TreeLaws.AlwaysConsistent | crates/sqlake-app/src/tree.rs:107-204 | Over any sequence of operations: open or closed implies loaded, loading or failed implies not loaded. |
| Trees.TreesAreConsistent | crates/sqlake-app/src/tree.rs:107-213 | In every state of every run of the store the tree of every connection is consistent in that sense, and what the connection shows is that tree's flattening. |
| TreeLaws.OneFetchAtATime | crates/sqlake-app/src/tree.rs:132-154 | Between two answers that ask to fetch one node there is a finished load of it or new roots. |
| TreeLaws.FlatteningIsShallow | crates/sqlake-app/src/tree.rs:208-251 | On any catalogue, cyclic ones included, every row is less deep than there are loaded nodes. |
| TreeLaws.FlatteningIsPreorder | crates/sqlake-app/src/tree.rs:208-251 | Where paths extend their parent's, the cycle guard is never taken: the flattening is the unguarded preorder walk, and a row is as deep as its path is long, less one. |
| TreeLaws.CollapseAndReopen | crates/sqlake-app/src/tree.rs:132-154 | Collapsing an open row removes exactly the contiguous block beneath it, and reopening restores the very state without a fetch. |
| Opening.AskingIsShown | crates/sqlake-app/src/tree.rs:132-154 | Where paths extend: a toggle that asks for a fetch redraws that one row as being fetched, and nothing else. |
| Opening.AnAnswerIsShown | crates/sqlake-app/src/tree.rs:190-251 | The answer to a node being fetched draws it open with its children right behind it, in the answer's order and one deeper, and leaves every other row what and where it was. |
| Opening.AFailureIsShown | crates/sqlake-app/src/tree.rs:200-204 | A failed fetch is said on the node's row, and nothing else changes. |
| Opening.ALeafIsNeverAsked | crates/sqlake-app/src/tree.rs:115-121 | A child with nothing in it is never asked about. |
| Opening.RootsAreShown | crates/sqlake-app/src/tree.rs:107-112 | New roots are drawn one after another at depth 0, with nothing beneath them, on any catalogue. |
| Runtime.Runtime.Run | crates/sqlake-app/src/store.rs:510-539 | The loop: for everything it takes from either queue, in whatever order, it publishes the state that taking it makes, and takes nothing once it is to quit. |
| Runtime.Runtime.Retain | crates/sqlake-app/src/store.rs:560-563 | The rows but one, in order. |
| Runtime.Runtime.Apply | crates/sqlake-app/src/store.rs:594-646 | What the action's own method does. |
| Runtime.Runtime.Disconnect | crates/sqlake-app/src/store.rs:730-779 | The session is closed, what is in flight for the connection ends, queries with nothing yet are told so, previews and definitions go and answered queries stay. |
| Runtime.Runtime.FindOrphans | crates/sqlake-app/src/store.rs:744-763 | Exactly the rows of what belongs to the connection, in order. |
| Runtime.Runtime.DropFound | crates/sqlake-app/src/store.rs:764-773 | The orphans end one after the other, and only queries are abandoned. |
| Runtime.Runtime.FetchPage | crates/sqlake-app/src/store.rs:1362-1402 | A new request ends the one before it, and the preview waits for the new one. |
| Runtime.Runtime.RecordEnd | crates/sqlake-app/src/store.rs:1474-1482 | A written row is told; a row being written has its outcome held. |
| Runtime.Runtime.OnRecorded | crates/sqlake-app/src/store.rs:1448-1471 | A row that exists is told the outcome that waited for it, or is kept for when the run ends. |
| Runtime.Runtime.Abandon | crates/sqlake-app/src/store.rs:1675-1755 | What waited for the reply, for each kind of row, is put into a state somebody can act on; rows already shown stay. |
| Runtime.Runtime.Handle | crates/sqlake-app/src/store.rs:1759-1824 | Ends the row of the event and does what its own method does. |
| Runtime.Runtime.OnPreviewed | crates/sqlake-app/src/store.rs:1873-1963 | Only a reply for the page awaited is taken; it adds rows or replaces them as the preview recorded. |
| Runtime.Land | crates/sqlake-app/src/store.rs:1893-1938 | A page that landed: merged or on its own, where the next one starts, and whether there is more. |
| Runtime.Miss | crates/sqlake-app/src/store.rs:1939-1957 | A page that failed: rows already there stay when it was to be added, and go otherwise. |
| Runtime.TheLoopMakesTheRun | crates/sqlake-app/src/store.rs:510-539 | In every run of the whole system the state is what the loop published last, and it published once for everything it took. |
| Exchanges.AConnection | crates/sqlake-app/src/store.rs:650-728 | A connect to a listed profile with a driver asks for a session; what comes is the session, its access and its roots, or why not. Without the driver the connection says so; an id in use or an unknown profile does nothing. |
| Exchanges.ASessionTooLate | crates/sqlake-app/src/store.rs:1826-1852 | A session nobody waits for any more is closed, and nothing else changes. |
| Exchanges.ADisconnection | crates/sqlake-app/src/store.rs:730-779 | The session is closed once, the tree goes, whatever still ran on the connection fails as closed, and no query or preview of another changes. |
| Exchanges.ANode | crates/sqlake-app/src/store.rs:781-840 | Opening a node that is known, not loaded and not on its way asks for its children once and shows that. |
| Exchanges.AFetchedNode | crates/sqlake-app/src/store.rs:781-840 | A node with its children there turns over without asking. |
| Exchanges.NothingToOpen | crates/sqlake-app/src/store.rs:781-840 | A node nobody heard of, on its way, or a leaf is left alone, and so is an open one asked to be open. |
| Exchanges.ChildrenCome | crates/sqlake-app/src/store.rs:1854-1871 | What comes for a node is what it holds and shows; a failure is said on it, and a session found gone is let go. |
| Exchanges.ADefinition | crates/sqlake-app/src/store.rs:901-979 | A definition is fetched when there is none, it failed, or a refresh is asked for, and what comes is shown. |
| Exchanges.ANewPreview | crates/sqlake-app/src/store.rs:843-877 | A preview that is not there asks for the first page, unsorted. |
| Exchanges.AFailedPreview | crates/sqlake-app/src/store.rs:843-877 | One whose page failed asks for its first page again, sorted as it was. |
| Exchanges.ASort | crates/sqlake-app/src/store.rs:999-1049 | A sort asks for the first page sorted by that column, upwards unless it was sorted upwards by it already, and drops the rows shown; on a session that cannot sort, or past the columns, nothing happens. |
| Exchanges.SortingTurns | crates/sqlake-app/src/store.rs:1036-1040 | A column that sorts nothing sorts upwards, the second time downwards, and then upwards again. |
| Exchanges.MoreRows | crates/sqlake-app/src/store.rs:1051-1082 | More rows are asked for from one past the last, as many as before and in the same order, to be added. |
| Exchanges.NoMoreRows | crates/sqlake-app/src/store.rs:1051-1082 | While a page is awaited, with nothing to add to, or past the end, nothing is asked. |
| Exchanges.ASearch | crates/sqlake-app/src/store.rs:1512-1567 | A search remembers its words and keeps the rows shown; the answer to those words is shown, and an answer to others is not. |
| Exchanges.TheTemplates | crates/sqlake-app/src/store.rs:1581-1650 | Reading or writing templates shows the list that comes, and beside it what was written wrong. |
| Answers.APageIsShown | crates/sqlake-app/src/store.rs:1873-1938 | The rows shown after a page are those before and the page's, when it is to be added and has the same columns, and otherwise the page's alone, with a note if it should have been added; the next offset, the counts and whether there is more are spelled out. |
| Answers.AFailedPageIsShown | crates/sqlake-app/src/store.rs:1939-1987 | A page that failed leaves rows that were to be added to and says why beside them; otherwise it is what shows. A session found gone is let go. |
| Answers.ARun | crates/sqlake-app/src/store.rs:1089-1151 | A run on a session under a new id asks for that query, shows it loading, and begins its row under its statement, connection and issuer. |
| Answers.AYes | crates/sqlake-app/src/store.rs:1227-1267 | A yes runs the statement that was asked about over the very refusal, begins a row for it, and answers the question; with no question or no session it does nothing. |
| Answers.ARunIsShown | crates/sqlake-app/src/store.rs:1269-1330 | A query shows the rows that came, the question with nothing loading, or why it failed. |
| Answers.ItsRowIsTold | crates/sqlake-app/src/store.rs:1269-1330 | Its row is told how many rows, that it was over the budget, or what went wrong: at once if it is written, and else when it is. |
| Answers.AnEstimateIsShown | crates/sqlake-app/src/store.rs:1203-1225 | A price tells no row and starts nothing; one that failed says why. |
| Answers.ACancel | crates/sqlake-app/src/store.rs:1659-1755 | Whatever row is cancelled, its task is dropped, what waited for it says cancelled, and the row of a run is told so. |
| Answers.GoneIsIdle | crates/sqlake-app/src/store.rs:744-773 | A connection that is gone has no task that opens it, or fetches, describes or runs anything on it. |
| Answers.AForgottenQuery | crates/sqlake-app/src/store.rs:1332-1346 | A forgotten query is gone and no task works on it. |
| Answers.AForgottenDefinition | crates/sqlake-app/src/store.rs:981-997 | The same of a definition. |
| Answers.AForgottenPreview | crates/sqlake-app/src/store.rs:1348-1360 | And of a preview and the page it waits for. |
| Served.Spawn | crates/sqlake-app/src/store.rs:189-235 | The object and the laws together: a session spawned publishes once before anything happens and once for everything its loop takes, the last of it being the state of the whole run; and in every snapshot rows are the tasks, what has no row is not loading, connections are open exactly with a session, and trees are consistent and shown as they are. |
| Rows.ApplyWorks | crates/sqlake-app/src/store.rs:549-571 | Every action ends some rows and then begins at most one task, and a task begins only where its kind may: on a session, for a new connection, for a new query, or for the question that waits. |
| Rows.HandleWorks | crates/sqlake-app/src/store.rs:1759-1824 | Every event ends its own row and begins nothing. |
| Frames.ApplyTouches | crates/sqlake-app/src/store.rs:594-646 | Every action but a disconnection changes what it is about and nothing else that is shown; sessions end only with connections, the history changes only with queries, and the count not at all. |
| Frames.DisconnectShows | crates/sqlake-app/src/store.rs:730-779 | Exactly what a disconnection leaves of every connection, preview, definition and query. |
| Loading.RowsAreTheTasks | crates/sqlake-app/src/store.rs:549-571 | In every state of every run row ids are distinct, are exactly the ids of the tasks, and name their task's owner. |
| Loading.NothingIsStuck | crates/sqlake-app/src/snapshot.rs:369-416 | In every state of every run, whatever is shown as loading has a row with its owner whose task is running and will be heard from, and cancelling that row takes it out of loading; so what has no row is not loading. |
| Loading.AbandonStopsLoading | crates/sqlake-app/src/store.rs:1675-1755 | Giving up on any kind of row takes what it was for out of loading, and starts nothing else loading. |
| Loading.CancelIsNotStuck | crates/sqlake-app/src/store.rs:1659-1673 | Cancelling keeps every loading thing tracked by a task. |
| Loading.SearchedIsNotStuck | crates/sqlake-app/src/store.rs:1558-1567 | An answer to words the box no longer holds belongs to a search that had ended, so dropping it strands nothing. |
| Sessions.SessionsAreConserved | crates/sqlake-app/src/store.rs:1826-1852 | In every state of every run a connection is open exactly when it has a session; every session ever delivered is held by one connection, or was closed once, or was lost once, and only one of these. |
| Closing.DisconnectIsFinal | crates/sqlake-app/src/store.rs:730-779 | After an existing connection is disconnected, in every later state it has no session, is neither open nor opening, and no preview, definition or row belongs to it. |
| Closing.StepKeepsGone | crates/sqlake-app/src/store.rs:1826-1852 | No single step, late replies included, brings a closed connection anything back. |
| Paging.NoGapAndNoOverlap | crates/sqlake-app/src/store.rs:1873-1958 | In every run against a driver that answers a page with its first rows, a preview that shows rows shows exactly the first rows of its relation as it is sorted, as many as it says. |
| Paging.ToldIsFaithful | crates/sqlake-app/src/store.rs:1887-1891 | Comparing replies by their page is enough: any reply for the page awaited, stale ones too, carries the rows awaited. |
| Paging.ExhaustedIsEverything | crates/sqlake-app/src/store.rs:1919-1934 | With a driver that answers with something while there is something, a preview that says there is no more holds everything. |
| Paging.EveryPageLeavesLess | crates/sqlake-app/src/store.rs:1051-1082 | In every run, taking a page that is to be added leaves strictly less to ask for, and never less than nothing. |
| Paging.PagingEnds | crates/sqlake-app/src/store.rs:1051-1082 | From any state of any run, while the preview is neither forgotten nor ordered anew and whatever else goes on: no more pages are added to it than it has rows to come, and one; and if that many are, it says that there is no more. |
| Queries.QueriesRunOnce | crates/sqlake-app/src/store.rs:1089-1151 | In every run that uses no query id twice, a query has one row while it loads and none otherwise; one that waits for a yes is idle, has no row, and nothing of it is still to be heard from. |
| Consent.AYesIsUsedOnce | crates/sqlake-app/src/store.rs:1227-1267 | Over any run, the approved runs of a question, and one more if it is waiting, are no more than the times it was asked; each carries the very refusal. |
| HistoryLaws.RowsSettleAtMostOnce | crates/sqlake-app/src/store.rs:1421-1494 | In every run a history row is told an outcome at most once, and only after the library answered about it. |
| HistoryLaws.RowsAreToldOfTheirOwnQuery | crates/sqlake-app/src/store.rs:1269-1330 | In every run no row is told of another query's run: what it is told is what a reply to a run of its own query said, or that it was cancelled, or that its connection was closed. |
| Attribution.RowsAreToldOfTheirOwnRun | crates/sqlake-app/src/store.rs:1421-1494 | Query ids used once and no run of the query begun while a row of it is being written: when a run begins with its row and its task, whatever that row is ever told is what that very task replied, or that it was cancelled or its connection closed, since then; and no earlier row of the query is told anything any more. |
| Attribution.RowsAreToldInTimeExactlyWhenApart | crates/sqlake-app/src/store.rs:1227-1267 | Where runs of a query have not overlapped yet and one begins, overlapping or not: an earlier row of it that is ever written has been told by then if and only if it was not being written; and whatever any row of the query is told afterwards, however runs go on, is an outcome of that run or of a later one, so an overlapped row is never told its own. |
| Attribution.OutcomesAreLostExactlyWhen | crates/sqlake-app/src/store.rs:1448-1482 | In every run of the system with query ids used once: an outcome that was held for a row is never dropped untold if and only if no approval began a run of the query while a row of it was being written, and no late reply, of a task that had been given up on, was read while its row was being written and said something else than what was held. |
| Attribution.EndedRunsAreToldOnce | crates/sqlake-app/src/store.rs:1448-1482 | Under the same condition: if at some time a row was begun and its query shows that it is not running, then at any later time at which the row was written it has been told an outcome, and one only, even if the query has been forgotten or run again since. |
| Tellings.StepTells | crates/sqlake-app/src/store.rs:1448-1494 | What any single step does to the rows of a query: only the row that arrives or was kept is told, and only the outcome that comes or was held; a run whose row is being written holds the last of its ends, or the very outcome it held, until its row is read, and that row is told it; a run that begins holds nothing. |
| Tellings.EndingIsItsOwn | crates/sqlake-app/src/store.rs:1269-1330 | Whatever ends a run of a query, a reply, a cancel or a disconnection, is of a task of that query that was still to be heard from. |
| Overlap.AnOverlapTellsTheWrongRow | crates/sqlake-app/src/store.rs:1448-1482 | The failing case, as a legal run of the whole system for every statement, refusal and result: connect, run, be refused, say yes before the refusal's row is written. In the end both rows are written and both runs are over; the refused run's row says that it ran, and the row of the run that ran is told nothing. |
| Overlap.WaitingTellsTheRightRows | crates/sqlake-app/src/store.rs:1448-1482 | The same callers and the same replies with the yes behind the row: each row is told how its own run ended. |
| Overlap.ALateReplyReplacesACancel | crates/sqlake-app/src/store.rs:1474-1482 | The other failing case, as a legal run of the whole system for every statement and result: the reply is on its way when the run is cancelled; the row was to be told that, the reply is read, and the row is told that it ran. |
| Barrier.Settle | crates/sqlake-app/src/wait.rs:54-79 | Returns the first snapshot looked at for which the condition holds, and fails only when it held for none. |
| Barrier.DispatchAndSettle | crates/sqlake-app/src/wait.rs:93-102 | The action is queued and waited for. Whatever run follows, whoever else dispatches: a snapshot that is returned meets the condition and is a state of that run at or after the taking of that very action. |
| Barrier.TheBarrierIsExact | crates/sqlake-app/src/store.rs:258-269 | Whoever else dispatches: a later state has applied the ordinal a dispatch handed back if and only if the loop has since taken that very action, as the one with that number. |
| Barrier.SettledIsCounted | crates/sqlake-app/src/snapshot.rs:396-402 | Once a preview waits for a page, any later state in which the same preview has no row has counted more requests as finished. |
| Barrier.AskingIsCounted | crates/sqlake-app/src/snapshot.rs:396-402 | When the loop has taken a retry or an accepted request for more, any later state in which the same preview has no row has counted strictly more finished requests than there were before. |
| Barrier.AskingWaits | crates/sqlake-app/src/store.rs:843-877 | A retry of a failed preview, and an accepted request for more, leave the preview waiting with nothing counted yet. |

## Left out

- Sockets, the wire protocol, the command line, configuration, permissions and the terminal front-end: input and output, with no state of their own worth a proof.
- Drivers, credentials and catalogue queries: calls into code outside; each law names what it asks of them.
- `Connect`, `ExpandNode`, `PreviewTable` and `DescribeTable` as use cases: a task that replies with anything of the right type. `RunQuery` and `RunApproved` are modelled, in `Approval`, on their own: the store's tasks carry the refused statement but not the ceiling or the row cap.
- The order of connections, previews, definitions and queries among themselves: the store keeps them in vectors and looks them up by their key, and here they are maps. The rows of work in flight keep their order.
- Names, labels, colours, messages, start times and durations, `estimate`, `failed_at` and `took` of a query, capabilities other than whether a preview can be sorted, and `explorer`: shown and never decided on.
- Saving, replacing and deleting a template are one action here, because the store treats them alike: a write and then a read on one task.
- Timeouts and clocks: a wait that fails is told whether the store had stopped.
- `attempts` and row ids stop at the largest 64-bit number in the program and go on here; a page's offset does stop there, as in the program.
- A driver that changes a relation's columns between pages: the branch is in `Store.Landed`, and the paging laws assume it away.
- Catalogue paths that do not extend their parent's: the flattening terminates and is bounded on them; that it is the preorder walk, and that collapsing hides one block, is proved where they do.
- A session that a connect task opened but was aborted before it could deliver: it closes with the task, outside the store.
- Nested block comments: the scanner does not nest them, and neither does the model.

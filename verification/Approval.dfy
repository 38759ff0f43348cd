/**
 From a text to a query that runs: `ApprovedQuery` of
 crates/sqlake-core/src/sql.rs and the use cases of
 crates/sqlake-app/src/usecase/run_query.rs.

 The server is whatever answers. What a use case asks of it is recorded, in
 order, so that what can be run at all is a fact about that record.
 */
module Approval {
  import opened Wrappers
  import opened Lexer
  import opened Statements
  import opened StatementLaws
  import opened Positions
  import Kinds

  datatype Estimate = Bytes(bytes: nat) | Cost(units: real) | Unknown

  datatype Granted = WithinBudget | Ungated | ByHand

  datatype Access = ReadOnly | ReadWrite

  datatype ApprovedQuery =
    ApprovedQuery(sql: Validated, maxRows: Option<nat>, estimate: Estimate, granted: Granted)

  datatype OverBudget =
    OverBudget(sql: Validated, maxRows: Option<nat>, estimate: Estimate, budget: nat)

  datatype NotApproved = Over(over: OverBudget) | WritesReadOnly(sql: Validated)

  function KindOfSql(sql: Validated): StatementKind {
    KindOf(Words(Lex(sql.text, sql.escaping).lexemes))
  }

  function Within(sql: Validated, maxRows: Option<nat>, estimate: Estimate, budget: Option<nat>, access: Access)
    : Result<ApprovedQuery, NotApproved>
  {
    if access == ReadOnly && KindOfSql(sql) == Writes then Failure(WritesReadOnly(sql))
    else if estimate.Bytes? && budget.Some? then
      if estimate.bytes > budget.value then Failure(Over(OverBudget(sql, maxRows, estimate, budget.value)))
      else Success(ApprovedQuery(sql, maxRows, estimate, WithinBudget))
    else Success(ApprovedQuery(sql, maxRows, estimate, Ungated))
  }

  function Approve(refused: OverBudget): ApprovedQuery {
    ApprovedQuery(refused.sql, refused.maxRows, refused.estimate, ByHand)
  }

  // ── the use cases ───────────────────────────────────────────────────────

  /** What the server is asked, in the order it is asked. */
  datatype Ask = AskEstimate(sql: Validated) | AskExecute(query: ApprovedQuery)

  /** The server's own refusals, with the place it gives in the statement it was sent. */
  datatype ServerError = ServerError(message: string, at: Option<Position>)

  /** What the server would answer. Nothing is assumed about it. */
  datatype Server<Rows> = Server(estimate: Result<Estimate, ServerError>, rows: Result<Rows, ServerError>)

  datatype RunError = Invalid(why: InvalidSql) | AtServer(error: ServerError) | Refused(sql: Validated)

  datatype Output<Rows> = Ran(estimate: Estimate, rows: Rows) | NeedsApproval(over: OverBudget)

  datatype Run<Rows> = Run(answer: Result<Output<Rows>, RunError>, asks: seq<Ask>)

  function PlaceInSource(error: ServerError, sql: Validated): RunError {
    AtServer(if error.at.Some? then error.(at := Some(InSource(sql.start, error.at.value))) else error)
  }

  function Execute<Rows>(query: ApprovedQuery, server: Server<Rows>, asks: seq<Ask>): Run<Rows> {
    Run(match server.rows
        case Failure(error) => Failure(PlaceInSource(error, query.sql))
        case Success(rows) => Success(Ran(query.estimate, rows)),
        asks + [AskExecute(query)])
  }

  function RunQuery<Rows>(raw: string, e: Escaping, access: Access, maxRows: Option<nat>, budget: Option<nat>,
                          server: Server<Rows>): Run<Rows>
  {
    match Validate(raw, e)
    case Failure(why) => Run(Failure(Invalid(why)), [])
    case Success(sql) =>
      match server.estimate
      case Failure(error) => Run(Failure(PlaceInSource(error, sql)), [AskEstimate(sql)])
      case Success(estimate) =>
        match Within(sql, maxRows, estimate, budget, access)
        case Success(approved) => Execute(approved, server, [AskEstimate(sql)])
        case Failure(Over(over)) => Run(Success(NeedsApproval(over)), [AskEstimate(sql)])
        case Failure(WritesReadOnly(_)) => Run(Failure(Refused(sql)), [AskEstimate(sql)])
  }

  function RunApproved<Rows>(refused: OverBudget, server: Server<Rows>): Run<Rows> {
    Execute(Approve(refused), server, [])
  }

  /** The tighter of the session's ceiling and the caller's own. */
  function EffectiveBudget(session: Option<nat>, asked: Option<nat>): Option<nat> {
    if session.Some? && asked.Some? then Some(if session.value < asked.value then session.value else asked.value)
    else if session.Some? then session
    else asked
  }

  // ── the laws ────────────────────────────────────────────────────────────

  /** A single statement that a connection with this access may run. */
  ghost predicate MayRun(sql: Validated, raw: string, e: Escaping, access: Access) {
    && Validate(raw, e) == Success(sql)
    && (access == ReadOnly ==> Kinds.OnlyReads(Lex(raw, e).lexemes))
  }

  /**
   Running without a person: what is executed is the one statement of the text,
   it was estimated first, on a read-only connection it reads, and a price in
   bytes is inside every ceiling given.
   */
  lemma OnlyTheEstimatedRuns<Rows>(raw: string, e: Escaping, access: Access, maxRows: Option<nat>,
                                   session: Option<nat>, asked: Option<nat>, server: Server<Rows>)
    ensures var run := RunQuery(raw, e, access, maxRows, EffectiveBudget(session, asked), server);
            forall k :: 0 <= k < |run.asks| && run.asks[k].AskExecute? ==>
              var q := run.asks[k].query;
              && MayRun(q.sql, raw, e, access)
              && k == 1 && run.asks[0] == AskEstimate(q.sql) && server.estimate == Success(q.estimate)
              && (q.estimate.Bytes? && session.Some? ==> q.estimate.bytes <= session.value)
              && (q.estimate.Bytes? && asked.Some? ==> q.estimate.bytes <= asked.value)
              && (q.granted == WithinBudget <==> q.estimate.Bytes? && (session.Some? || asked.Some?))
              && q.granted != ByHand
  {
    hide Lex, Words, KindOf, Validate, Kinds.OnlyReads;
    if Validate(raw, e).Success? {
      KindIsOfTheSource(raw, e);
      Kinds.ReadsExactlyWhen(raw, e);
      ValidatedKeepsEscaping(raw, e);
    }
  }

  lemma ValidatedKeepsEscaping(raw: string, e: Escaping)
    requires Validate(raw, e).Success?
    ensures Validate(raw, e).value.escaping == e
  {
    hide Lex, Spans;
  }

  /**
   Running because a person said yes: the question was asked about the one
   statement of the text, nothing had been executed, and what a yes executes is
   that statement at that price, and still only a read where only reads may run.
   */
  lemma ARefusalRunsWhatWasRefused<Rows>(raw: string, e: Escaping, access: Access, maxRows: Option<nat>,
                                         budget: Option<nat>, server: Server<Rows>, later: Server<Rows>)
    requires var run := RunQuery(raw, e, access, maxRows, budget, server);
             run.answer.Success? && run.answer.value.NeedsApproval?
    ensures var run := RunQuery(raw, e, access, maxRows, budget, server);
            var over := run.answer.value.over;
            && run.asks == [AskEstimate(over.sql)] && server.estimate == Success(over.estimate)
            && budget == Some(over.budget) && over.estimate.Bytes? && over.estimate.bytes > over.budget
            && MayRun(over.sql, raw, e, access)
            && RunApproved(over, later).asks == [AskExecute(ApprovedQuery(over.sql, maxRows, over.estimate, ByHand))]
  {
    hide Lex, Words, KindOf, Validate, Kinds.OnlyReads;
    KindIsOfTheSource(raw, e);
    Kinds.ReadsExactlyWhen(raw, e);
    ValidatedKeepsEscaping(raw, e);
  }

  /**
   A text that does not only read, by its bare words, is refused on a read-only
   connection, whatever it would cost and whatever the ceiling.
   */
  lemma AWriteIsNeverRun<Rows>(raw: string, e: Escaping, maxRows: Option<nat>, budget: Option<nat>,
                               server: Server<Rows>)
    requires Validate(raw, e).Success? && !Kinds.OnlyReads(Lex(raw, e).lexemes)
    ensures var run := RunQuery(raw, e, ReadOnly, maxRows, budget, server);
            && run.answer.Failure?
            && forall k :: 0 <= k < |run.asks| ==> !run.asks[k].AskExecute?
  {
    hide Lex, Words, KindOf, Validate, Kinds.OnlyReads;
    KindIsOfTheSource(raw, e);
    Kinds.ReadsExactlyWhen(raw, e);
    ValidatedKeepsEscaping(raw, e);
  }

  /**
   And what may run does: a single statement that was priced, that only reads or
   may write, and whose price is in no bytes or inside every ceiling given, is
   executed, and its rows come back with the price.
   */
  lemma WhatMayRunRuns<Rows>(raw: string, e: Escaping, access: Access, maxRows: Option<nat>, session: Option<nat>,
                             asked: Option<nat>, server: Server<Rows>)
    requires Validate(raw, e).Success? && server.estimate.Success?
    requires access == ReadWrite || Kinds.OnlyReads(Lex(raw, e).lexemes)
    requires server.estimate.value.Bytes? ==>
               && (session.Some? ==> server.estimate.value.bytes <= session.value)
               && (asked.Some? ==> server.estimate.value.bytes <= asked.value)
    ensures var run := RunQuery(raw, e, access, maxRows, EffectiveBudget(session, asked), server);
            && |run.asks| == 2 && run.asks[0] == AskEstimate(Validate(raw, e).value) && run.asks[1].AskExecute?
            && run.asks[1].query.sql == Validate(raw, e).value && run.asks[1].query.maxRows == maxRows
            && (server.rows.Success? ==>
                  run.answer == Success(Ran(server.estimate.value, server.rows.value)))
            && (server.rows.Failure? ==>
                  run.answer.Failure? && run.answer.error.AtServer?
                  && run.answer.error.error.message == server.rows.error.message)
  {
    hide Lex, Words, KindOf, Validate, Kinds.OnlyReads;
    KindIsOfTheSource(raw, e);
    Kinds.ReadsExactlyWhen(raw, e);
    ValidatedKeepsEscaping(raw, e);
  }

  /**
   An error the server places in the statement it was sent is shown on the same
   character of the text that was written.
   */
  lemma ErrorsAreShownInTheText<Rows>(raw: string, e: Escaping, access: Access, maxRows: Option<nat>,
                                      budget: Option<nat>, server: Server<Rows>, k: nat)
    requires Validate(raw, e).Success? && server.estimate.Failure?
    requires var sql := Validate(raw, e).value;
             && 1 <= k <= |sql.text| && KeptRange(raw, e).0 + k <= MAX_U32
             && server.estimate.error.at == OffsetIn(sql.text, k)
    ensures var answer := RunQuery(raw, e, access, maxRows, budget, server).answer;
            && answer.Failure? && answer.error.AtServer?
            && answer.error.error.message == server.estimate.error.message
            && answer.error.error.at == OffsetIn(raw, KeptRange(raw, e).0 + k)
            && raw[KeptRange(raw, e).0 + k - 1] == Validate(raw, e).value.text[k - 1]
  {
    hide Lex, Words, KindOf, Validate, KeptRange, OffsetIn;
    PositionsMapBack(raw, e, k);
  }

  /** So is one that comes while it runs, approved by a person or not. */
  lemma ErrorsOfTheRunToo<Rows>(raw: string, e: Escaping, query: ApprovedQuery, server: Server<Rows>, k: nat)
    requires Validate(raw, e).Success? && query.sql == Validate(raw, e).value && server.rows.Failure?
    requires 1 <= k <= |query.sql.text| && KeptRange(raw, e).0 + k <= MAX_U32
    requires server.rows.error.at == OffsetIn(query.sql.text, k)
    ensures var answer := Execute(query, server, []).answer;
            && answer.Failure? && answer.error.AtServer?
            && answer.error.error.message == server.rows.error.message
            && answer.error.error.at == OffsetIn(raw, KeptRange(raw, e).0 + k)
  {
    hide Lex, Words, KindOf, Validate, KeptRange, OffsetIn;
    PositionsMapBack(raw, e, k);
  }
}

/**
 * The write path of `log` as the source has it, on an open connection.
 * The message is pasted between single quotes into the INSERT text without
 * escaping, so a message holding a `'` ends the literal early and the
 * INSERT is a syntax error. The retry after a failure logs a message
 * that starts with the rendered exception type `<class '...'>`, so the
 * retry's own INSERT always fails, and so does the retry after it, until
 * Python's recursion limit raises RecursionError. That error is raised
 * inside the `except` blocks of every level and reaches the caller.
 *
 * `Logging.Logger.Log` models the behaviour the source intends instead: the
 * failure is written as one HIGH row.
 */
module LogAsWritten {
  import opened Urgencies
  import opened Store
  import opened Logging

  /** What a call of `log` ends with: a normal return, or an exception reaching the caller. Either way, the tables committed by the `finally` blocks. */
  datatype Outcome = Returned(tables: Tables) | Raised(tables: Tables)

  /** What the try block ends with: both statements ran, or one of them raised `error`. */
  datatype Attempt = Done(tables: Tables) | Failed(tables: Tables, error: Error)

  /**
   * A single quote in the message closes the SQL string literal early; the
   * model takes every such message to make the INSERT a syntax error.
   */
  predicate BreaksInsert(message: string)
  {
    |message| > 0 && (message[0] == '\'' || BreaksInsert(message[1..]))
  }

  /** `BreaksInsert` holds exactly for the messages that contain a single quote. */
  lemma {:induction false} BreaksInsertContains(message: string)
    ensures BreaksInsert(message) <==> '\'' in message
  {
    if |message| > 0 {
      BreaksInsertContains(message[1..]);
      assert message == [message[0]] + message[1..];
    }
  }

  /** The retry's message always holds the quote of the rendered type. */
  lemma RetryBreaksInsert(e: Error)
    ensures BreaksInsert(FailureMessage(e))
  {
    var r := FailureMessage(e);
    BreaksInsertContains(r);
    assert r[7] == '\'';
  }

  /** The error SQLite raises for the malformed INSERT text. */
  const SyntaxError := Error("sqlite3.OperationalError", "syntax error")

  /** The try block: CREATE TABLE IF NOT EXISTS, then INSERT of `row`. */
  function Try(tables: Tables, day: string, row: Record, fault: Fault): (r: Attempt)
    ensures r.Done? <==> fault.NoFault? && !BreaksInsert(row.message)
    ensures r.Done? ==> r.tables == Extend(tables, day, [row])
    ensures r.Failed? ==> Rows(r.tables, day) == Rows(tables, day)
    ensures r.Failed? ==> r.tables == tables || r.tables == CreateTable(tables, day)
  {
    match fault
    case CreateFault(e) => Failed(tables, e)
    case InsertFault(e) => Failed(CreateTable(tables, day), e)
    case NoFault =>
      var created := CreateTable(tables, day);
      if BreaksInsert(row.message) then Failed(created, SyntaxError)
      else
        CreateThenInsert(tables, day, row);
        Done(Insert(created, day, row))
  }

  /**
   * `log` as written, with the connection open and the retry's own
   * CREATE and INSERT facing no fault but the quoting one. `frames` is the
   * call depth Python still allows; at 0 the call raises RecursionError.
   * A call returns normally only when its first attempt succeeds, and then
   * it has written exactly the one row.
   */
  function AsWrittenLog(tables: Tables, day: string, message: string, u: Urgency, stamp: string,
                        fault: Fault, frames: nat): (r: Outcome)
    decreases frames
    ensures r.Returned? <==> frames > 0 && fault.NoFault? && !BreaksInsert(message)
    ensures r.Returned? ==> r.tables == Extend(tables, day, [Record(stamp, message, Name(u))])
  {
    if frames == 0 then Raised(tables)
    else
      match Try(tables, day, Record(stamp, message, Name(u)), fault)
      case Done(written) => Returned(written)
      case Failed(partial, e) =>
        RetryBreaksInsert(e);
        AsWrittenLog(partial, day, FailureMessage(e), HIGH, stamp, NoFault, frames - 1)
  }

  /**
   * As written, a failed CREATE or INSERT, or a message holding a quote,
   * never leaves a row behind: the failure reaches the caller and today's
   * table keeps exactly the rows it had.
   */
  lemma {:induction false} AsWrittenFailureRaises(tables: Tables, day: string, message: string, u: Urgency,
                                                  stamp: string, fault: Fault, frames: nat)
    requires !fault.NoFault? || BreaksInsert(message)
    decreases frames
    ensures var r := AsWrittenLog(tables, day, message, u, stamp, fault, frames);
      r.Raised? && Rows(r.tables, day) == Rows(tables, day)
  {
    if frames > 0 {
      var attempt := Try(tables, day, Record(stamp, message, Name(u)), fault);
      RetryBreaksInsert(attempt.error);
      AsWrittenFailureRaises(attempt.tables, day, FailureMessage(attempt.error), HIGH, stamp, NoFault, frames - 1);
    }
  }

  /**
   * As written, the only trace a failing call can leave in the tables is
   * today's table, created empty if it was missing.
   */
  lemma {:induction false} AsWrittenFailureCreatesAtMost(tables: Tables, day: string, message: string, u: Urgency,
                                                         stamp: string, fault: Fault, frames: nat)
    requires !fault.NoFault? || BreaksInsert(message)
    decreases frames
    ensures var r := AsWrittenLog(tables, day, message, u, stamp, fault, frames);
      r.tables == tables || r.tables == CreateTable(tables, day)
  {
    if frames > 0 {
      var attempt := Try(tables, day, Record(stamp, message, Name(u)), fault);
      RetryBreaksInsert(attempt.error);
      AsWrittenFailureCreatesAtMost(attempt.tables, day, FailureMessage(attempt.error), HIGH, stamp, NoFault, frames - 1);
      CreateTableIdempotent(tables, day);
    }
  }

  /** As written, a message without quotes and no fault is written as one row, as intended. */
  lemma AsWrittenCleanWrite(tables: Tables, day: string, message: string, u: Urgency, stamp: string, frames: nat)
    requires !BreaksInsert(message) && frames > 0
    ensures AsWrittenLog(tables, day, message, u, stamp, NoFault, frames)
      == Returned(Extend(tables, day, [Record(stamp, message, Name(u))]))
  {
  }
}

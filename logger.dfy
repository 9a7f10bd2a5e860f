/**
 * The Logger: a severity-tagged, append-only event log over one database,
 * writing into a table named after the day the logger was built.
 *
 * Effects the logger has on the world are modelled as follows:
 *  - the database is the map `tables` (and `committed`, what the last
 *    commit made durable);
 *  - the filesystem is one boolean, whether the logs directory exists;
 *  - the clock is a parameter of every operation;
 *  - a failing CREATE or INSERT is the input `fault`.
 */
module Logging {
  import opened Wrappers
  import opened Urgencies
  import opened ClockFormat
  import opened Store

  /** The connection: none yet, open, or closed for good. */
  datatype Connection = Uninitialized | Connected | Closed

  /** What went wrong in a write: the exception class's qualified name and the exception's text. */
  datatype Error = Error(typeName: string, detail: string)

  /** Whether the CREATE or the INSERT of a write raises. */
  datatype Fault = NoFault | CreateFault(error: Error) | InsertFault(error: Error)

  /** The record announcing a connection; it ends with the database name. */
  function ConnectedMessage(databaseName: string): (r: string)
    ensures |r| == 20 + |databaseName| && r[20..] == databaseName
    ensures r[..20] == "Connected logger to "
  {
    "Connected logger to " + databaseName
  }

  /** The record announcing a new logs directory; it ends with the directory it was made in. */
  function CreatedFolderMessage(workDir: string): (r: string)
    ensures |r| == 24 + |workDir| && r[24..] == workDir
    ensures r[..24] == "Created logs folder in: "
  {
    "Created logs folder in: " + workDir
  }

  /** The record announcing the shutdown; it ends with the database name. */
  function ClosingMessage(databaseName: string): (r: string)
    ensures |r| == 24 + |databaseName| && r[24..] == databaseName
    ensures r[..24] == "Closing connection with "
  {
    "Closing connection with " + databaseName
  }

  /** How Python renders an exception's type: `<class 'module.Name'>`. */
  function TypeText(typeName: string): string
  {
    "<class '" + typeName + "'>"
  }

  /**
   * The record that replaces a failed write: the rendered type, the error
   * text, and a fixed trailer. Because of the rendered type it always
   * holds a single quote.
   */
  function FailureMessage(e: Error): (r: string)
    ensures |r| > 7 && r[7] == '\''
  {
    var r := TypeText(e.typeName) + ": " + e.detail + "\nOccurred in Logger";
    assert r[7] == '\'';
    r
  }

  /**
   * A failure record names the failure: the rendered type, which holds the
   * type's name after `<class '`, then `: ` and the error's text.
   */
  lemma FailureMessageLayout(e: Error)
    ensures var r, n := FailureMessage(e), |TypeText(e.typeName)|;
      && n == |e.typeName| + 10
      && |r| == n + 2 + |e.detail| + 19
      && r[..n] == TypeText(e.typeName)
      && r[8..8 + |e.typeName|] == e.typeName
      && r[n..n + 2] == ": "
      && r[n + 2..n + 2 + |e.detail|] == e.detail
  {
    var t := TypeText(e.typeName);
    var r := FailureMessage(e);
    assert r == t + ": " + e.detail + "\nOccurred in Logger";
    assert t[8..8 + |e.typeName|] == e.typeName;
    assert r[..|t|] == t;
    assert r[|t|..|t| + 2] == ": ";
    assert r[|t| + 2..|t| + 2 + |e.detail|] == e.detail;
  }

  /** Every failure record ends with the fixed trailer naming the logger. */
  lemma FailureMessageTrailer(e: Error)
    ensures var r := FailureMessage(e);
      |r| >= 19 && r[|r| - 19..] == "\nOccurred in Logger"
  {
    var r := FailureMessage(e);
    assert r == (TypeText(e.typeName) + ": " + e.detail) + "\nOccurred in Logger";
  }

  /**
   * The records connecting writes, at clock reading `stamp`. With the logs
   * directory present: one "Connected" record. Without it: the directory is
   * made, and its report triggers a nested connection, so "Connected",
   * "Created logs folder", "Connected".
   */
  function ConnectRecords(databaseName: string, logsDir: bool, workDir: string, stamp: string): (rows: seq<Record>)
    ensures |rows| == if logsDir then 1 else 3
    ensures rows[|rows| - 1] == Record(stamp, ConnectedMessage(databaseName), Name(NONE))
    ensures !logsDir ==> rows[0] == rows[2] && rows[1] == Record(stamp, CreatedFolderMessage(workDir), Name(LOW))
  {
    var connected := Record(stamp, ConnectedMessage(databaseName), Name(NONE));
    if logsDir then [connected]
    else [connected, Record(stamp, CreatedFolderMessage(workDir), Name(LOW)), connected]
  }

  /**
   * The one record a write leaves: the message under its urgency's name, or,
   * if the CREATE or INSERT raised, a HIGH record describing the failure.
   */
  function WriteRecord(message: string, u: Urgency, stamp: string, fault: Fault): (row: Record)
    ensures row.timestamp == stamp
    ensures fault.NoFault? ==> row.message == message && row.urgency == Name(u)
    ensures !fault.NoFault? ==> row.message == FailureMessage(fault.error) && row.urgency == Name(HIGH)
  {
    match fault
    case NoFault => Record(stamp, message, Name(u))
    case CreateFault(e) => Record(stamp, FailureMessage(e), Name(HIGH))
    case InsertFault(e) => Record(stamp, FailureMessage(e), Name(HIGH))
  }

  class Logger {
    /** The database file's name; never empty. */
    const databaseName: string
    /** The day-table name, fixed when the logger is built. */
    const today: string
    /** The working directory the logs directory is made in. */
    const workDir: string

    var conn: Connection
    /** How many times a database connection has been opened. */
    var opens: nat
    /** Whether the logs directory exists. */
    var logsDir: bool
    /** The database as this connection sees it. */
    var tables: Tables
    /** The database as of the last commit. */
    var committed: Tables

    /** The object invariant: a database name is given, and a connection implies the logs directory. */
    ghost predicate Valid()
      reads this
    {
      databaseName != [] && (conn != Uninitialized ==> logsDir)
    }

    /** The records a reconnect would write before the next record, at clock reading `t`. */
    ghost function Pending(t: Time): seq<Record>
      reads this
    {
      if conn == Uninitialized then ConnectRecords(databaseName, logsDir, workDir, Timestamp(t)) else []
    }

    /** Builds the logger on day `date` over a database that already holds `stored`, and connects. */
    constructor (databaseName: string, date: Date, t: Time, logsDir: bool, workDir: string, stored: Tables)
      requires databaseName != []
      ensures Valid()
      ensures this.databaseName == databaseName && this.workDir == workDir
      ensures today == TableName(date)
      ensures conn == Connected && this.logsDir && opens == 1
      ensures tables == Extend(stored, today, ConnectRecords(databaseName, logsDir, workDir, Timestamp(t)))
      ensures committed == tables
    {
      this.databaseName := databaseName;
      today := TableName(date);
      this.workDir := workDir;
      conn := Uninitialized;
      opens := 0;
      this.logsDir := logsDir;
      tables := stored;
      committed := stored;
      new;
      Connect(t);
    }

    /**
     * Makes the logs directory if it is missing (and reports it), opens a
     * connection unless one is already open, and reports the connection.
     */
    method Connect(t: Time)
      requires Valid() && conn == Uninitialized
      modifies this
      decreases if logsDir then 0 else 1, 1, 0
      ensures Valid()
      ensures conn == Connected && logsDir && opens == old(opens) + 1
      ensures tables == Extend(old(tables), today, old(Pending(t)))
      ensures committed == tables
    {
      ghost var before := tables;
      ghost var dirExisted := logsDir;
      ghost var stamp := Timestamp(t);
      ghost var connected := Record(stamp, ConnectedMessage(databaseName), Name(NONE));
      ghost var first := [connected, Record(stamp, CreatedFolderMessage(workDir), Name(LOW))];
      assert Pending(t) == if dirExisted then [connected] else first + [connected];
      if !logsDir {
        logsDir := true;
        assert Pending(t) == [connected];
        Log(CreatedFolderMessage(workDir), Some(LOW), t, NoFault);
        assert [connected] + [WriteRecord(CreatedFolderMessage(workDir), LOW, stamp, NoFault)] == first;
      }
      ghost var middle := tables;
      if conn == Uninitialized {
        conn := Connected;
        opens := opens + 1;
      }
      assert Pending(t) == [];
      Log(ConnectedMessage(databaseName), None, t, NoFault);
      assert [] + [WriteRecord(ConnectedMessage(databaseName), NONE, stamp, NoFault)] == [connected];
      assert tables == Extend(middle, today, [connected]);
      if !dirExisted {
        ExtendTwice(before, today, first, [connected]);
      }
    }

    /**
     * Writes one record to today's table: reconnects if there is no
     * connection, creates the table if it does not exist, inserts the
     * record, and commits. A failure of the create or the insert is
     * written as a HIGH record instead and never reaches the caller.
     */
    method Log(message: string, urgency: Option<Urgency>, t: Time, fault: Fault)
      requires Valid() && conn != Closed
      modifies this
      decreases if logsDir then 0 else 1, if conn == Uninitialized then 1 else 0, if fault.NoFault? then 1 else 2
      ensures Valid()
      ensures conn == Connected && logsDir == (old(logsDir) || old(conn) == Uninitialized)
      ensures opens == old(opens) + (if old(conn) == Uninitialized then 1 else 0)
      ensures tables == Extend(old(tables), today, old(Pending(t)) + [WriteRecord(message, OrNone(urgency), Timestamp(t), fault)])
      ensures committed == tables
    {
      ghost var pending := Pending(t);
      ghost var reconnected := conn == Uninitialized;
      if conn == Uninitialized {
        Connect(t);
      }
      ghost var connected := tables;
      assert if reconnected then connected == Extend(old(tables), today, pending) else connected == old(tables) && pending == [];
      var u := OrNone(urgency);
      var record := Record(Timestamp(t), message, Name(u));
      ghost var written := WriteRecord(message, u, Timestamp(t), fault);
      match fault {
        case CreateFault(e) =>
          assert Pending(t) == [];
          Log(FailureMessage(e), Some(HIGH), t, NoFault);
          assert [] + [WriteRecord(FailureMessage(e), HIGH, Timestamp(t), NoFault)] == [written];
        case InsertFault(e) =>
          tables := CreateTable(tables, today);
          assert Pending(t) == [];
          Log(FailureMessage(e), Some(HIGH), t, NoFault);
          assert [] + [WriteRecord(FailureMessage(e), HIGH, Timestamp(t), NoFault)] == [written];
          ExtendAfterCreate(connected, today, [written]);
        case NoFault =>
          tables := CreateTable(tables, today);
          tables := Insert(tables, today, record);
          CreateThenInsert(connected, today, record);
      }
      assert tables == Extend(connected, today, [written]);
      committed := tables;
      if reconnected {
        ExtendTwice(old(tables), today, pending, [written]);
      } else {
        assert pending + [written] == [written];
      }
    }

    /** Writes a MODERATE record announcing the shutdown, then closes the connection for good. */
    method Close(t: Time, fault: Fault)
      requires Valid() && conn != Closed
      modifies this
      ensures Valid()
      ensures conn == Closed && opens == old(opens) + (if old(conn) == Uninitialized then 1 else 0)
      ensures tables == Extend(old(tables), today,
        old(Pending(t)) + [WriteRecord(ClosingMessage(databaseName), MODERATE, Timestamp(t), fault)])
      ensures committed == tables
    {
      Log(ClosingMessage(databaseName), Some(MODERATE), t, fault);
      conn := Closed;
    }
  }

  /**
   * Builds a logger, failing as the constructor's assertion does when the
   * database name is empty.
   */
  method Open(databaseName: string, date: Date, t: Time, logsDir: bool, workDir: string, stored: Tables)
    returns (r: Result<Logger, string>)
    ensures r.Failure? <==> databaseName == []
    ensures r.Failure? ==> r.error == "Database name must be provided to logger"
    ensures r.Success? ==> fresh(r.value) && r.value.Valid() && r.value.conn == Connected
    ensures r.Success? ==> r.value.databaseName == databaseName && r.value.today == TableName(date)
    ensures r.Success? ==> r.value.tables == Extend(stored, TableName(date), ConnectRecords(databaseName, logsDir, workDir, Timestamp(t)))
  {
    if databaseName == [] {
      return Failure("Database name must be provided to logger");
    }
    var logger := new Logger(databaseName, date, t, logsDir, workDir, stored);
    return Success(logger);
  }
}

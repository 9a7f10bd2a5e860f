# Logger: a verified model

This project models the `Logger` component of the stock-market predictor
(`logger/Logger.py`). The logger is a severity-tagged, append-only event log
backed by an SQLite database. Each logger is built over one database file. It
fixes the name of a day-table once, from the calendar day at construction, in
the form `Www_DD_Mmm_YYYY`. It then appends `(timestamp, message, urgency name)`
rows to that table. Every write creates the table if it is missing, inserts one
row and commits. A failing create or insert is meant to be logged again as a
HIGH record instead of being raised to the caller. As written, that second
write always fails as well (see "Findings"). `Logging` models the intended
behaviour, and `LogAsWritten` models the code as it stands.

Modules, one per concern:

- `Urgencies` (`urgency.dfy`): the five-level urgency enumeration, its values
  0..4 and the symbolic names that records store.
- `Digits` (`digits.dfy`): zero-padded, fixed-width decimal fields, and
  reading them back.
- `ClockFormat` (`clock_format.dfy`): the day-table name `'%a_%d_%b_%Y'` and
  the record timestamp `'%H:%M:%S.%f (UTC)'`. Both take a clock reading as a
  parameter. Each has a parser as its inverse, with round trips proved in both
  directions.
- `Store` (`store.dfy`): the database as a map from table names to sequences
  of records. It has the two statements the logger issues (create-if-not-exists
  and insert) and `Extend`, the reference effect of a write.
- `Logging` (`logger.dfy`): the `Logger` class. Its state is the connection
  (`Uninitialized`, `Connected` or `Closed`), the number of connections opened,
  whether the logs directory exists, the tables as the connection sees them and
  the tables as last committed. `Connect` and `Log` are mutually recursive
  methods, as `_connect` and `log` are in the source. Each method is proved
  against `Extend` applied to the records it must write. Connecting writes the
  records given by `ConnectRecords`, and every log call writes one
  `WriteRecord`.
- `LogAsWritten` (`log_as_written.dfy`): the write path of `log` as
  written, including the unescaped quoting of the INSERT text and the
  unbounded retry. It is bounded by the call depth Python allows.

The wall clock, the filesystem and SQLite failures are inputs. Each operation
receives a `Date` or `Time` reading. The logs directory is one boolean. A
`Fault` value says whether the CREATE or the INSERT of a write raises, and with
which error.

## Model

| member | source | states |
|---|---|---|
| `Urgencies.Value` | logger/Logger.py:128-132 | each level's value is at most 4, and only NONE has value 0 |
| `Urgencies.FromValue` | logger/Logger.py:122-132 | lookup by value succeeds exactly for 0..4 and yields the level with that value |
| `Urgencies.FromName` | logger/Logger.py:89 | a stored urgency column read back gives a level whose name is that column |
| `Urgencies.OrNone` | logger/Logger.py:75-76 | a missing urgency becomes NONE; a given one is kept |
| `Urgencies.ValueRoundTrip` | logger/Logger.py:128-132 | lookup by value inverts `Value` for every level |
| `Urgencies.ValueInjective` | logger/Logger.py:128-132 | two levels have the same value iff they are the same level |
| `Urgencies.ValueOrder` | logger/Logger.py:128-132 | the values increase strictly from NONE through LOW, MODERATE and HIGH to SEVERE |
| `Urgencies.Name` | logger/Logger.py:89 | a stored urgency name is an upper-case word of at least three letters, and it is "NONE" exactly for NONE |
| `Urgencies.NameRoundTrip` | logger/Logger.py:89 | storing a level by its symbolic name loses nothing: reading the name back gives the level |
| `Urgencies.NameInjective` | logger/Logger.py:89 | two levels are stored under the same name iff they are the same level |
| `Digits.Pad` | logger/Logger.py:112 | a zero-padded field has exactly the requested width and only decimal digits (also the `%d` and `%Y` fields of line 22) |
| `Digits.Parse` | logger/Logger.py:112 | a digit string of width w denotes a number below 10^w |
| `Digits.ParsePad` | logger/Logger.py:112 | reading a padded field gives back the number written (induction on the width) |
| `Digits.PadParse` | logger/Logger.py:112 | every digit string is the padded form of the number it denotes (induction on the length) |
| `Digits.PadInjective` | logger/Logger.py:112 | two numbers of one width have the same padded form iff they are equal |
| `ClockFormat.WeekdayName` | logger/Logger.py:22 | a `%a` weekday abbreviation is three letters: one capital, then two small |
| `ClockFormat.MonthName` | logger/Logger.py:22 | a `%b` month abbreviation is three letters: one capital, then two small |
| `ClockFormat.WeekdayFromName` | logger/Logger.py:22 | a parsed weekday abbreviation is the `%a` text of the weekday it yields |
| `ClockFormat.MonthFromName` | logger/Logger.py:22 | a parsed month abbreviation is the `%b` text of the month it yields |
| `ClockFormat.WeekdayNameRoundTrip` | logger/Logger.py:22 | every weekday abbreviation has 3 letters and reads back as its weekday |
| `ClockFormat.MonthNameRoundTrip` | logger/Logger.py:22 | every month abbreviation has 3 letters and reads back as its month |
| `ClockFormat.TableName` | logger/Logger.py:22 | a day-table name is 15 characters long |
| `ClockFormat.TableNameLayout` | logger/Logger.py:22 | a day-table name is weekday (3 letters), `_`, 2-digit day, `_`, month (3 letters), `_`, 4-digit year, at fixed positions |
| `ClockFormat.TableNameRoundTrip` | logger/Logger.py:22 | every day's table name parses back to exactly that day |
| `ClockFormat.ParseTableNameSound` | logger/Logger.py:22 | any string that parses as a day is exactly that day's table name, so nothing else passes the day-name pattern; the pattern checks the format, not whether the date exists on the calendar |
| `ClockFormat.TableNameInjective` | logger/Logger.py:80 | two days share a table iff they are the same day |
| `ClockFormat.Timestamp` | logger/Logger.py:112 | a timestamp is 21 characters long |
| `ClockFormat.TimestampLayout` | logger/Logger.py:112 | a timestamp is `HH:MM:SS.ffffff` followed by ` (UTC)`, with each field zero-padded at a fixed position |
| `ClockFormat.TimestampRoundTrip` | logger/Logger.py:112 | every timestamp parses back to the clock reading it came from, so HH is 00..23, MM and SS are 00..59 |
| `ClockFormat.ParseTimestampSound` | logger/Logger.py:112 | any string that parses as a clock reading is exactly that reading's timestamp |
| `Store.CreateTable` | logger/Logger.py:79-84 | create-if-not-exists adds only the named table, empty, and leaves every existing table as it was |
| `Store.Insert` | logger/Logger.py:87-90 | an insert appends exactly one row at the end of the named table; no other table changes |
| `Store.Extend` | logger/Logger.py:92-96 | a write leaves the table's old rows as a prefix followed by the written rows, and creates only that table |
| `Store.ExtendOthersUnchanged` | logger/Logger.py:88 | a write to today's table leaves every other table's rows unchanged |
| `Store.CreateTableIdempotent` | logger/Logger.py:94 | creating the day-table again never resets or duplicates it |
| `Store.CreateThenInsert` | logger/Logger.py:94-96 | create followed by insert is exactly a one-row extension of the day-table |
| `Store.ExtendAfterCreate` | logger/Logger.py:94-99 | a create that succeeded before a failed insert does not change what the retry leaves behind |
| `Store.ExtendTwice` | logger/Logger.py:92-99 | two consecutive writes to one table are one write of both row sequences, in order |
| `Logging.ConnectedMessage` | logger/Logger.py:57 | the connection record is the fixed prefix "Connected logger to " followed by the database name |
| `Logging.CreatedFolderMessage` | logger/Logger.py:46 | the new-directory record is the fixed prefix "Created logs folder in: " followed by the working directory |
| `Logging.ClosingMessage` | logger/Logger.py:119 | the shutdown record is the fixed prefix "Closing connection with " followed by the database name |
| `Logging.FailureMessage` | logger/Logger.py:99 | a failure record holds a single quote at position 7, inside the rendered `<class '...'>` type |
| `Logging.FailureMessageLayout` | logger/Logger.py:99 | a failure record names the failure: it starts with the rendered type `<class '<type name>'>`, then `: ` and the error's text, at fixed positions |
| `Logging.FailureMessageTrailer` | logger/Logger.py:99 | every failure record ends with "\nOccurred in Logger" |
| `Logging.ConnectRecords` | logger/Logger.py:43-57 | connecting writes one record when the logs directory exists and three when it is made, and the last record is always "Connected logger to <name>" at NONE; when the directory is made, the middle record is "Created logs folder in: <dir>" at LOW and the first repeats the last |
| `Logging.WriteRecord` | logger/Logger.py:87-99 | a write leaves the message under its urgency's name, or, if the create or insert raised, "<class '<type>'>: <error>\nOccurred in Logger" under HIGH; the timestamp is the call's clock reading |
| `Logging.Logger.constructor` | logger/Logger.py:15-31 | builds with the given name and the table name of the given day, connects once, and writes the connection records to the existing store; all of it is committed |
| `Logging.Logger.Connect` | logger/Logger.py:33-57 | makes a missing logs directory, opens exactly one connection even when the directory report reconnects, and appends exactly the connection records to today's table |
| `Logging.Logger.Log` | logger/Logger.py:59-102 | reconnects only without a connection; appends the pending connection records, then exactly one record, to today's table; other tables are untouched; nothing is raised; the result is committed in every case |
| `Logging.Logger.Close` | logger/Logger.py:114-120 | appends one "Closing connection with <name>" record at MODERATE (HIGH if its write fails), commits, and moves to the terminal closed state |
| `Logging.Open` | logger/Logger.py:15-17 | fails with "Database name must be provided to logger" exactly when the name is empty; otherwise returns a fresh, connected logger |
| `LogAsWritten.BreaksInsertContains` | logger/Logger.py:89 | the model's INSERT breaks exactly when the message contains a single quote |
| `LogAsWritten.RetryBreaksInsert` | logger/Logger.py:99 | the message of every retry breaks the INSERT text |
| `LogAsWritten.Try` | logger/Logger.py:92-96 | the try block completes exactly when there is no fault and no quote in the message, and then it is a one-row extension of today's table; when it fails, today's rows are unchanged and at most the CREATE took effect |
| `LogAsWritten.AsWrittenLog` | logger/Logger.py:59-102 | `log` as written returns normally exactly when call depth remains, there is no fault and the message holds no quote, and then it has appended exactly the one row; in every other case an exception reaches the caller |
| `LogAsWritten.AsWrittenFailureRaises` | logger/Logger.py:92-102 | as written, any failing create or insert, or any quote in the message, ends in an exception reaching the caller, and today's table keeps exactly its old rows |
| `LogAsWritten.AsWrittenFailureCreatesAtMost` | logger/Logger.py:92-102 | as written, such a failing call changes the tables at most by creating today's table empty |
| `LogAsWritten.AsWrittenCleanWrite` | logger/Logger.py:87-102 | as written, a message without quotes and with no fault is appended as one row, as intended |

## Left out

- The directory handling at logger/Logger.py:39-50 (`os.getcwd`, `os.chdir`, `os.mkdir`) is process-global I/O. It is reduced to one boolean, whether the logs directory exists. The directory named in "Created logs folder in: ..." is the constant `workDir`.
- SQLite is not modelled: connecting, cursors, `execute`, `commit`, `close` and the text of the SQL statements. The database is a map of record sequences. A commit copies `tables` into `committed`. The cursor that `_connect` recreates carries no state of its own and is not modelled.
- An unescaped `'` in a message breaks the INSERT. In `Logging` this appears only as the `Fault` input, as does any other SQLite error. `LogAsWritten` models the quoting directly.
- Logging.Logger.Log: the HIGH record written after a failure is written successfully, which is the intended behaviour. As written, that retry always fails (see "Findings"). `LogAsWritten` models the as-written path on an open connection only, without the reconnect and the connection records.
- LogAsWritten.BreaksInsert: any single quote in a message is taken to make the INSERT a syntax error. SQL parsing is not modelled, so a doubled `''` (an escaped quote) and a message crafted to close the literal and complete the statement are over-approximated. The retry's `<class '...'>` text is always followed by a bare identifier, so the retry fails in every case.
- LogAsWritten.AsWrittenLog: a retry's CREATE and INSERT face no fault other than the quoting one. In the source they could also fail for another reason, which ends the same way, in an exception with no row written.
- LogAsWritten.AsWrittenLog: SQLite's error text for the broken INSERT is a fixed constant. The model does not reproduce the exact message, which does not change the outcome.
- `sqlite3.connect`, `os.mkdir` and the commit in the `finally` block (logger/Logger.py:102) raise to the caller when they fail. The model has no failure input for them.
- Logging.Logger.Log and Logging.Logger.Close require that the logger is not closed. After `close` the source keeps a closed connection object, so `log` does not reconnect and fails recursively.
- Logging.Logger.Connect: the writes made while connecting ("Connected", "Created logs folder") are assumed to succeed.
- The wall clock is a parameter. Every record written during one call carries that call's single clock reading, while the source reads the clock once per record.
- ClockFormat.ParseTableName: a `Date` is not checked against the calendar. `Mon_31_Feb_2024` parses, and the weekday need not match the date. The clock supplies real dates, and the logger never parses table names.
- ClockFormat.TableName: years are limited to 1000..9999, because `%Y` pads earlier years differently on different platforms. Weekday and month abbreviations are those of the C locale.
- The Python type check at logger/Logger.py:16 cannot fail in the model, because the name is typed `string`. The non-empty check at logger/Logger.py:17 is `Logging.Open`, and it follows the code: an assertion failure with the source's message, not a dedicated error kind.
- Python `str(message)` conversion is not modelled: messages are strings.
- The module-level logger at logger/Logger.py:134 is process wiring and is not part of this model.
- backend/api/models/models.py is a Django schema with no logic and is not part of this model.
- The day-table name is frozen at construction, as in the source. A logger that outlives midnight keeps writing to the previous day's table.

## Findings

| source | as written | input that shows it | evidently intended | confidence | as-written member | corrected member |
|---|---|---|---|---|---|---|
| logger/Logger.py:89-99 | the retry logs `f"{type(e)}: {e}..."`. Its `<class '...'>` text holds a quote, which goes unescaped into the INSERT's string literal, so the retry's INSERT fails too. The retries repeat until RecursionError reaches the caller, and no HIGH row is ever written | any failing CREATE or INSERT, e.g. `log("it's")` | the failure is recorded as one HIGH row and nothing is raised | high; not executed | `LogAsWritten.AsWrittenFailureRaises` | `Logging.Logger.Log` |

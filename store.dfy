/**
 * The logger's database, abstracted: each table, named after a calendar
 * day, holds the records written to it in insertion order. The two SQL
 * statements the logger issues are CreateTable ('CREATE TABLE IF NOT
 * EXISTS') and Insert ('INSERT INTO ... VALUES').
 */
module Store {

  /** One row: the timestamp, the message and the urgency's name, all as text. */
  datatype Record = Record(timestamp: string, message: string, urgency: string)

  type Tables = map<string, seq<Record>>

  /** The rows of a table; a table that does not exist has none. */
  function Rows(tables: Tables, name: string): (rows: seq<Record>)
    ensures name in tables ==> rows == tables[name]
    ensures name !in tables ==> rows == []
  {
    if name in tables then tables[name] else []
  }

  /** 'CREATE TABLE IF NOT EXISTS': adds an empty table, or leaves an existing one alone. */
  function CreateTable(tables: Tables, name: string): (r: Tables)
    ensures r.Keys == tables.Keys + {name}
    ensures forall k :: k in tables ==> r[k] == tables[k]
    ensures name !in tables ==> r[name] == []
  {
    if name in tables then tables else tables[name := []]
  }

  /** 'INSERT INTO': appends one row to the end of an existing table. */
  function Insert(tables: Tables, name: string, row: Record): (r: Tables)
    requires name in tables
    ensures r.Keys == tables.Keys
    ensures r[name] == tables[name] + [row]
    ensures forall k :: k in tables && k != name ==> r[k] == tables[k]
  {
    tables[name := tables[name] + [row]]
  }

  /**
   * The effect of writing `rows` to table `name`, in order, creating the
   * table first if needed: the reference the logger's methods are proved against.
   */
  function Extend(tables: Tables, name: string, rows: seq<Record>): (r: Tables)
    ensures r.Keys == tables.Keys + {name}
    ensures Rows(r, name) == Rows(tables, name) + rows
  {
    tables[name := Rows(tables, name) + rows]
  }

  /** A write to one table leaves every other table as it was. */
  lemma ExtendOthersUnchanged(tables: Tables, name: string, rows: seq<Record>, other: string)
    requires other != name
    ensures Rows(Extend(tables, name, rows), other) == Rows(tables, other)
  {
  }

  /** Creating a table that already exists changes nothing, so creating twice is creating once. */
  lemma CreateTableIdempotent(tables: Tables, name: string)
    ensures CreateTable(CreateTable(tables, name), name) == CreateTable(tables, name)
    ensures name in tables ==> CreateTable(tables, name) == tables
  {
  }

  /** Create-then-insert is exactly a one-row extension: nothing duplicated, nothing reset. */
  lemma CreateThenInsert(tables: Tables, name: string, row: Record)
    ensures Insert(CreateTable(tables, name), name, row) == Extend(tables, name, [row])
  {
    var created := CreateTable(tables, name);
    assert Rows(created, name) == Rows(tables, name);
  }

  /** Creating the table before a write does not alter what the write leaves behind. */
  lemma ExtendAfterCreate(tables: Tables, name: string, rows: seq<Record>)
    ensures Extend(CreateTable(tables, name), name, rows) == Extend(tables, name, rows)
  {
    assert Rows(CreateTable(tables, name), name) == Rows(tables, name);
  }

  /** Two writes in a row to one table are one write of both row sequences. */
  lemma ExtendTwice(tables: Tables, name: string, first: seq<Record>, second: seq<Record>)
    ensures Extend(Extend(tables, name, first), name, second) == Extend(tables, name, first + second)
  {
    var once := Extend(tables, name, first);
    assert Rows(once, name) + second == Rows(tables, name) + (first + second);
  }
}

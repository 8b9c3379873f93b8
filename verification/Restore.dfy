/** Clear and replay: what a restore leaves in every table, whatever the table lists are. */
module Restore {
  import opened Lines
  import opened Dump
  import opened Targets

  /** The rows of each table, in order; one INSERT statement stands for the rows it brings. */
  type Db = map<Name, seq<string>>

  function Rows(db: Db, table: Name): seq<string> { if table in db then db[table] else [] }

  /** The server writes to the table it reads; a text without one it refuses. */
  function Insert(db: Db, stmt: string): Db {
    var t := ServerTarget(stmt);
    if t.None? then db else db[t.value := Rows(db, t.value) + [stmt]]
  }

  function InsertAll(db: Db, stmts: seq<string>): Db
    decreases |stmts|
  {
    if stmts == [] then db else InsertAll(Insert(db, stmts[0]), stmts[1..])
  }

  function Clear(db: Db, business: seq<string>): Db
    decreases |business|
  {
    if business == [] then db else Clear(db[Local(business[0]) := []], business[1..])
  }

  predicate Cleared(table: Name, business: seq<string>) { table.Local? && table.table in business }

  /** The statements that the server writes to one table, among these. */
  function Of(stmts: seq<string>, table: Name): seq<string> {
    if stmts == [] then []
    else (if ServerTarget(stmts[0]) == Some(table) then [stmts[0]] else []) + Of(stmts[1..], table)
  }

  predicate Concerns(i: Item, table: Name) {
    i.Statement? && i.lines != [] && ServerTarget(Body(i)) == Some(table)
  }

  /** The rows the dump holds for one table. */
  function DumpRows(items: seq<Item>, table: Name): seq<string> {
    if items == [] then []
    else (if Concerns(items[0], table) then [Body(items[0])] else []) + DumpRows(items[1..], table)
  }

  lemma {:induction false} InsertAllRows(db: Db, stmts: seq<string>, table: Name)
    ensures Rows(InsertAll(db, stmts), table) == Rows(db, table) + Of(stmts, table)
    decreases |stmts|
  {
    hide Rows, Insert, ServerTarget;
    if stmts != [] {
      var head: seq<string> := if ServerTarget(stmts[0]) == Some(table) then [stmts[0]] else [];
      InsertRows(db, stmts[0], table);
      InsertAllRows(Insert(db, stmts[0]), stmts[1..], table);
      assert (Rows(db, table) + head) + Of(stmts[1..], table) == Rows(db, table) + (head + Of(stmts[1..], table));
    } else {
      assert Rows(db, table) + [] == Rows(db, table);
    }
  }

  lemma InsertRows(db: Db, stmt: string, table: Name)
    ensures Rows(Insert(db, stmt), table) == Rows(db, table) + if ServerTarget(stmt) == Some(table) then [stmt] else []
  {
    hide ServerTarget;
  }

  lemma {:induction false} ClearRows(db: Db, business: seq<string>, table: Name)
    ensures Rows(Clear(db, business), table) == if Cleared(table, business) then [] else Rows(db, table)
    decreases |business|
  {
    if business != [] {
      ClearRows(db[Local(business[0]) := []], business[1..], table);
      assert business == [business[0]] + business[1..];
    }
  }

  lemma {:induction false} InsertAllParts(db: Db, a: seq<string>, b: seq<string>)
    ensures InsertAll(db, a + b) == InsertAll(InsertAll(db, a), b)
    decreases |a|
  {
    hide Insert;
    if a == [] {
      assert a + b == b;
    } else {
      assert (a + b)[1..] == a[1..] + b;
      InsertAllParts(Insert(db, a[0]), a[1..], b);
    }
  }

  lemma OfCons(stmt: string, rest: seq<string>, table: Name)
    ensures Of([stmt] + rest, table) == (if ServerTarget(stmt) == Some(table) then [stmt] else []) + Of(rest, table)
  {
    hide ServerTarget;
    assert ([stmt] + rest)[1..] == rest;
  }

  /** The whole restore: clear the business tables, replay the dump. */
  function RestoredDb(db: Db, content: string, business: seq<string>, preserved: seq<string>): Db {
    InsertAll(Clear(db, business), Replay(content, preserved, {}).executed)
  }

  /** After the restore every table holds its old rows unless it was cleared, then whatever the server writes to it
      of the statements that the replay wants. */
  lemma RestoreLeaves(db: Db, items: seq<Item>, business: seq<string>, preserved: seq<string>, table: Name)
    requires Plain(items) && ItemsOk(items, preserved)
    ensures Rows(RestoredDb(db, Print(items), business, preserved), table) ==
            (if Cleared(table, business) then [] else Rows(db, table)) + Of(Wanted(items, preserved), table)
  {
    hide ServerTarget, Plain, ItemsOk, Wanted, Print, Replay, NoneRejected;
    NothingRejected(Wanted(items, preserved));
    ReplayUndoesPrint(items, preserved, {});
    ClearRows(db, business, table);
    InsertAllRows(Clear(db, business), Wanted(items, preserved), table);
  }

  lemma NothingRejected(stmts: seq<string>)
    ensures NoneRejected(stmts, {})
  {
  }

  // ---- Tables that must not be written ----

  lemma {:induction false} NoneOfIff(stmts: seq<string>, table: Name)
    ensures Of(stmts, table) == [] <==> forall t :: t in stmts ==> ServerTarget(t) != Some(table)
    decreases |stmts|
  {
    hide ServerTarget;
    if stmts != [] {
      NoneOfIff(stmts[1..], table);
      assert stmts == [stmts[0]] + stmts[1..];
    }
  }

  /** A table that is not cleared is untouched by a restore if and only if no statement that the replay executes is
      written to it by the server: each that would be is caught by its first line. */
  lemma UntouchedIff(db: Db, items: seq<Item>, business: seq<string>, preserved: seq<string>, table: Name)
    requires Plain(items) && ItemsOk(items, preserved) && !Cleared(table, business)
    ensures Rows(RestoredDb(db, Print(items), business, preserved), table) == Rows(db, table)
       <==> (forall k :: 0 <= k < |items| && Concerns(items[k], table) ==> IsPreserved(Trim(items[k].lines[0]), preserved))
  {
    hide ServerTarget, Plain, ItemsOk, Body, Of, Wanted, RestoredDb, Print, IsPreserved, Trim;
    RestoreLeaves(db, items, business, preserved, table);
    var wanted := Wanted(items, preserved);
    NoneOfIff(wanted, table);
    WantedBodies(items, preserved);
    var before, written := Rows(db, table), Of(wanted, table);
    assert |before + written| == |before| + |written| && before + [] == before;
    if k :| 0 <= k < |items| && Concerns(items[k], table) && !IsPreserved(Trim(items[k].lines[0]), preserved) {
      assert Runs(items[k], preserved) && Body(items[k]) in wanted;
    }
  }

  // ---- Dumps that name every table on its first line ----

  lemma NamedRuns(i: Item, preserved: seq<string>, table: Name)
    requires i.Statement? && i.lines != [] ==> NamesTable(i.lines[0])
    requires forall k :: 0 <= k < |LinesOf(i)| ==> OneLine(LinesOf(i)[k])
    ensures Concerns(i, table) ==> table.Local? && (Runs(i, preserved) <==> table.table !in preserved)
  {
    if i.Statement? && i.lines != [] {
      var o :| Names(i.lines[0], o);
      NamedTarget(i, o);
      hide ServerTarget, Target, Trim, Body;
    }
  }

  lemma {:induction false} NamedRows(items: seq<Item>, preserved: seq<string>, table: Name)
    requires Plain(items) && AllNamed(items)
    ensures Of(Wanted(items, preserved), table) == if table.Foreign? || table.table in preserved then [] else DumpRows(items, table)
    ensures table.Foreign? ==> DumpRows(items, table) == []
    decreases |items|
  {
    hide ServerTarget, Body, Of, Runs, NamesTable;
    if items != [] {
      var i, rest := items[0], items[1..];
      assert forall k :: 0 <= k < |LinesOf(i)| ==> OneLine(LinesOf(i)[k]);
      NamedRuns(i, preserved, table);
      NamedRows(rest, preserved, table);
      if Runs(i, preserved) {
        RunsIsStatement(i, preserved);
        OfCons(Body(i), Wanted(rest, preserved), table);
      } else {
        assert Wanted(items, preserved) == Wanted(rest, preserved);
      }
    } else {
      NoRows(table);
    }
  }

  lemma RunsIsStatement(i: Item, preserved: seq<string>)
    requires Runs(i, preserved)
    ensures i.Statement? && i.lines != []
  {
  }

  lemma NoRows(table: Name)
    ensures Of([], table) == []
  {
  }

  /** A table that is not preserved ends with exactly the dump's rows if and only if it is cleared, or was empty (one
      in neither list keeps its old rows in front); a preserved one that is not cleared is untouched, and so is every
      other schema. */
  lemma RestoreIsExactIff(db: Db, items: seq<Item>, business: seq<string>, preserved: seq<string>, table: Name)
    requires Plain(items) && ItemsOk(items, preserved) && AllNamed(items)
    ensures table.Local? && table.table !in preserved ==>
      (Rows(RestoredDb(db, Print(items), business, preserved), table) == DumpRows(items, table) <==>
        table.table in business || Rows(db, table) == [])
    ensures !Cleared(table, business) && (table.Foreign? || table.table in preserved) ==>
      Rows(RestoredDb(db, Print(items), business, preserved), table) == Rows(db, table)
  {
    hide ServerTarget, Plain, ItemsOk, AllNamed, Of, DumpRows, Wanted, RestoredDb, Print;
    RestoreLeaves(db, items, business, preserved, table);
    NamedRows(items, preserved, table);
    var dump := DumpRows(items, table);
    assert |Rows(db, table) + dump| == |Rows(db, table)| + |dump|;
    assert [] + dump == dump && Rows(db, table) + [] == Rows(db, table);
  }

  /** A restore whose replay meets no error, whatever the server refuses otherwise, leaves what the one that is
      refused nothing leaves. */
  lemma SuccessIsRestored(db: Db, items: seq<Item>, business: seq<string>, preserved: seq<string>, rejects: set<string>)
    requires Plain(items) && ItemsOk(items, preserved) && Replay(Print(items), preserved, rejects).error.None?
    ensures InsertAll(Clear(db, business), Replay(Print(items), preserved, rejects).executed)
         == RestoredDb(db, Print(items), business, preserved)
  {
    hide Replay, Plain, ItemsOk, NoneRejected;
    ReplaySucceedsIff(items, preserved, rejects);
    ReplayUndoesPrint(items, preserved, rejects);
    NothingRejected(Wanted(items, preserved));
    ReplayUndoesPrint(items, preserved, {});
  }

  // ---- A dump that writes to a preserved table ----

  /** A plain name: lower-case letters and underscores. */
  predicate PlainName(t: string) { t != "" && forall i :: 0 <= i < |t| ==> 'a' <= t[i] <= 'z' || t[i] == '_' }

  /** The keyword on one line, the table on the next. */
  function Hidden(table: string): seq<string> { [INSERT_INTO, table + VALUES] }

  const VALUES := " VALUES (1);"

  lemma ValuesSkipped()
    ensures VALUES != "" && !NameChar(VALUES[0]) && !HasPrefix(SkipBlank(VALUES), ".")
  {
    assert VALUES[1..][0] == 'V' && VALUES[0] == ' ';
    assert SkipBlank(VALUES) == SkipBlank(VALUES[1..]) == VALUES[1..];
  }

  lemma PlainTarget(table: string)
    requires PlainName(table)
    ensures TargetAt(table + VALUES) == Some(Local(table))
  {
    ValuesSkipped();
    BareTarget(table, VALUES);
  }

  lemma NewLineSkipped(s: string)
    requires s != "" && ('a' <= s[0] <= 'z' || s[0] == '_')
    ensures SkipBlank("\n" + s) == s
  {
    assert ("\n" + s)[1..] == s;
    assert SkipBlank(s) == s;
  }

  lemma HiddenTarget(table: string)
    requires PlainName(table)
    ensures ServerTarget(Text(Hidden(table))) == Some(Local(table))
  {
    PlainTarget(table);
    NewLineSkipped(table + VALUES);
    hide SkipBlank, TargetAt, ServerTarget;
    var rest := "\n" + (table + VALUES);
    assert Hidden(table)[1..] == [table + VALUES];
    assert Text(Hidden(table)) == INSERT_INTO + rest;
    KeywordRead(INSERT_INTO, rest);
  }

  lemma KeywordLine(preserved: seq<string>)
    ensures StartsInsert(INSERT_INTO) && !Ends(INSERT_INTO) && OneLine(INSERT_INTO)
    ensures !IsQualified(Trim(INSERT_INTO)) && !IsPreserved(Trim(INSERT_INTO), preserved)
  {
    Trimmed(INSERT_INTO);
    hide Trim, TrimRight;
    assert Upper(INSERT_INTO) == INSERT_INTO;
    assert INSERT_INTO[|INSERT_INTO| - 1] == 'O';
    EmptyTrimmed();
    assert INSERT_INTO[|INSERT_INTO|..] == "";
  }

  lemma ValuesLine(table: string)
    requires PlainName(table)
    ensures !Skips(table + VALUES) && Ends(table + VALUES) && OneLine(table + VALUES)
  {
    var line := table + VALUES;
    assert line[0] == table[0] && line[|line| - 1] == ';';
    Trimmed(line);
    hide Trim, TrimRight;
    assert line[|line| - 1..] == ";";
  }

  lemma OnlyWanted(item: Item, preserved: seq<string>)
    requires Runs(item, preserved)
    ensures Wanted([item], preserved) == [Body(item)]
  {
    hide Runs, Body;
    assert [item][1..] == [];
  }

  lemma OnlyItem(item: Item, preserved: seq<string>)
    requires ItemOk(item, preserved) && forall k :: 0 <= k < |LinesOf(item)| ==> OneLine(LinesOf(item)[k])
    ensures Plain([item]) && ItemsOk([item], preserved)
  {
    hide ItemOk, OneLine, LinesOf;
  }

  /** A statement of two lines whose first passes the tests is executed and written where the server reads. */
  lemma TwoLinesWritten(db: Db, business: seq<string>, preserved: seq<string>, lines: seq<string>, table: Name)
    requires |lines| == 2 && OneLine(lines[0]) && OneLine(lines[1])
    requires StartsInsert(lines[0]) && !Ends(lines[0]) && !IsQualified(Trim(lines[0])) && !IsPreserved(Trim(lines[0]), preserved)
    requires !Skips(lines[1]) && Ends(lines[1]) && ServerTarget(Text(lines)) == Some(table) && !Cleared(table, business)
    ensures var items := [Statement(lines)];
      && Plain(items) && ItemsOk(items, preserved)
      && Rows(RestoredDb(db, Print(items), business, preserved), table) == Rows(db, table) + [Text(lines)]
  {
    var item := Statement(lines);
    hide Skips, Ends, StartsInsert, IsQualified, IsPreserved, Trim, OneLine, ServerTarget, Text, Cleared;
    assert Kept(lines) == lines by { KeptShrinks(lines); }
    assert StatementOk(lines, preserved) && Body(item) == Text(lines) && Runs(item, preserved);
    OnlyItem(item, preserved);
    OnlyWanted(item, preserved);
    OfCons(Text(lines), [], table);
    NoRows(table);
    hide Runs, Plain, ItemsOk, Of, RestoredDb, Print, Wanted, Rows, Body, StatementOk, Kept;
    RestoreLeaves(db, [item], business, preserved, table);
    assert [Text(lines)] + [] == [Text(lines)];
  }

  /** For every table: a statement that names it on its second line passes the replay's tests, whatever is
      preserved, is executed, and is written to that table by the server. */
  lemma HiddenTableIsWritten(db: Db, business: seq<string>, preserved: seq<string>, table: string)
    requires PlainName(table) && table !in business
    ensures var items := [Statement(Hidden(table))];
      && Plain(items) && ItemsOk(items, preserved)
      && Rows(RestoredDb(db, Print(items), business, preserved), Local(table)) == Rows(db, Local(table)) + [Text(Hidden(table))]
  {
    KeywordLine(preserved);
    ValuesLine(table);
    HiddenTarget(table);
    hide ServerTarget, Text, PlainName, RestoredDb, Skips, Ends, StartsInsert, IsQualified, IsPreserved, Trim;
    TwoLinesWritten(db, business, preserved, Hidden(table), Local(table));
  }

  // ---- A dump that writes to another schema ----

  /** The schema on one line, the period and the table on the next. */
  function HiddenSchema(schema: string, table: string): seq<string> { [INSERT_INTO + " " + schema, "." + table + VALUES] }

  lemma PeriodAfterBreak(table: string)
    requires PlainName(table)
    ensures SkipBlank("\n." + (table + VALUES)) == "." + (table + VALUES) && SkipBlank(table + VALUES) == table + VALUES
  {
    var line := table + VALUES;
    var s := "." + line;
    assert line[0] == table[0] && s[0] == '.';
    assert ("\n." + line)[1..] == s;
    hide PlainName;
    StartsVisible(s);
    StartsVisible(line);
  }

  lemma ForeignTarget(schema: string, table: string)
    requires PlainName(schema) && PlainName(table)
    ensures TargetAt(schema + ("\n." + (table + VALUES))) == Some(Foreign(schema, table))
  {
    var line, rest := table + VALUES, "\n." + (table + VALUES);
    PeriodAfterBreak(table);
    ValuesSkipped();
    assert !NameChar('\n') && rest[0] == '\n';
    hide SkipBlank, BareName, NameChar;
    assert (schema + rest)[0] == schema[0] && !Quoted(schema + rest);
    assert line[0] == table[0] && !Quoted(line);
    BareNameRead(schema, rest);
    BareNameRead(table, VALUES);
    assert ("." + line)[1..] == line;
  }

  lemma SpaceSkipped(s: string)
    requires s != "" && ('a' <= s[0] <= 'z' || s[0] == '_')
    ensures SkipBlank(" " + s) == s
  {
    assert (" " + s)[1..] == s;
    assert SkipBlank(s) == s;
  }

  lemma HiddenSchemaTarget(schema: string, table: string)
    requires PlainName(schema) && PlainName(table)
    ensures ServerTarget(Text(HiddenSchema(schema, table))) == Some(Foreign(schema, table))
  {
    var rest := schema + ("\n." + (table + VALUES));
    ForeignTarget(schema, table);
    assert rest[0] == schema[0];
    SpaceSkipped(rest);
    assert !NameChar((" " + rest)[0]);
    hide SkipBlank, TargetAt, ServerTarget, PlainName, NameChar;
    SchemaText(schema, table);
    KeywordRead(INSERT_INTO, " " + rest);
  }

  lemma SchemaText(schema: string, table: string)
    ensures Text(HiddenSchema(schema, table)) == INSERT_INTO + (" " + (schema + ("\n." + (table + VALUES))))
  {
    var first, second := INSERT_INTO + " " + schema, "." + table + VALUES;
    assert [first, second][1..] == [second];
    assert Text([first, second]) == first + "\n" + second;
    assert "." + (table + VALUES) == second;
  }

  lemma SchemaRest(schema: string)
    requires PlainName(schema)
    ensures var line := INSERT_INTO + " " + schema; Trim(line) == line && AfterInsert(line) == schema
  {
    var line := INSERT_INTO + " " + schema;
    assert line[0] == 'I' && line[|line| - 1] == schema[|schema| - 1];
    Visible(line[0]);
    Visible(line[|line| - 1]);
    Trimmed(line);
    Visible(schema[0]);
    Trimmed(schema);
    hide Trim;
    assert line[|INSERT_INTO|..] == " " + schema;
    assert Trim(" " + schema) == Trim(schema) by { SpaceTrimmed(schema); }
  }

  lemma SchemaKeyword(schema: string)
    ensures var line := INSERT_INTO + " " + schema; HasPrefix(Upper(line), INSERT_INTO)
  {
    var line := INSERT_INTO + " " + schema;
    assert forall i :: 0 <= i < |INSERT_INTO| ==> Upper(line)[i] == UpperChar(INSERT_INTO[i]);
  }

  lemma SchemaUnended(schema: string)
    requires PlainName(schema)
    ensures var line := INSERT_INTO + " " + schema; TrimRight(line) == line && !HasSuffix(line, ";") && OneLine(line)
  {
    var line := INSERT_INTO + " " + schema;
    assert line[|line| - 1] == schema[|schema| - 1];
    Trimmed(line);
  }

  lemma SchemaLine(schema: string, preserved: seq<string>)
    requires PlainName(schema) && schema !in preserved
    ensures var line := INSERT_INTO + " " + schema;
      && StartsInsert(line) && !Ends(line) && OneLine(line)
      && !IsQualified(Trim(line)) && !IsPreserved(Trim(line), preserved)
  {
    SchemaRest(schema);
    SchemaKeyword(schema);
    SchemaUnended(schema);
    NoneFound(schema);
    assert !Quoted(schema);
    hide Trim, TrimRight, IndexAny, Upper, PlainName, HasPrefix, HasSuffix, OneLine, AfterInsert, Quoted;
  }

  lemma NoneFound(schema: string)
    requires PlainName(schema)
    ensures IndexAny(schema, {' ', '\t', '('}).None? && '.' !in schema
  {
  }

  lemma SecondLine(table: string)
    requires PlainName(table)
    ensures var line := "." + table + VALUES; !Skips(line) && Ends(line) && OneLine(line)
  {
    var line := "." + table + VALUES;
    assert line[0] == '.' && line[|line| - 1] == ';';
    Trimmed(line);
    hide Trim, TrimRight;
    assert line[|line| - 1..] == ";";
  }

  /** And for every schema and table: a period on the second line makes the server write to another schema. */
  lemma HiddenSchemaIsWritten(db: Db, business: seq<string>, preserved: seq<string>, schema: string, table: string)
    requires PlainName(schema) && PlainName(table) && schema !in preserved
    ensures var items := [Statement(HiddenSchema(schema, table))];
      && Plain(items) && ItemsOk(items, preserved)
      && Rows(RestoredDb(db, Print(items), business, preserved), Foreign(schema, table))
           == Rows(db, Foreign(schema, table)) + [Text(HiddenSchema(schema, table))]
  {
    var lines := HiddenSchema(schema, table);
    SchemaLine(schema, preserved);
    SecondLine(table);
    HiddenSchemaTarget(schema, table);
    hide ServerTarget, Text, PlainName, RestoredDb, Skips, Ends, StartsInsert, IsQualified, IsPreserved, Trim;
    TwoLinesWritten(db, business, preserved, lines, Foreign(schema, table));
  }

  // ---- The lists as they are ----

  const BUSINESS_TABLES :=
    ["batch_skip_parts", "batch_trace", "batch_consumptions", "bom_items", "product_batches", "parts", "products", "audit_log"]

  const PRESERVED_TABLES := ["users", "schema_migrations", "db_identity", "devices", "license", "security_events"]

  const UNLISTED_TABLES := ["batch_temp_parts", "part_inbounds", "part_inbound_draws", "batch_trace_allocs"]

  lemma Unlisted(table: string)
    requires table in UNLISTED_TABLES
    ensures table !in BUSINESS_TABLES && table !in PRESERVED_TABLES
  {
    assert table[6] != BUSINESS_TABLES[0][6] || |table| != 16;
    assert table[6] != BUSINESS_TABLES[2][6] || |table| != 18;
  }

  /** The lot, draw, allocation and temporary-part tables are on neither list, so a restore appends the dump's
      rows to their old ones. */
  lemma UnlistedTablesKeepOldRows(db: Db, items: seq<Item>, table: string)
    requires Plain(items) && ItemsOk(items, PRESERVED_TABLES) && AllNamed(items) && table in UNLISTED_TABLES
    ensures Rows(RestoredDb(db, Print(items), BUSINESS_TABLES, PRESERVED_TABLES), Local(table))
         == Rows(db, Local(table)) + DumpRows(items, Local(table))
  {
    Unlisted(table);
    hide ServerTarget, Plain, ItemsOk, AllNamed, Of, DumpRows, Wanted, RestoredDb, Print, Rows;
    RestoreLeaves(db, items, BUSINESS_TABLES, PRESERVED_TABLES, Local(table));
    NamedRows(items, PRESERVED_TABLES, Local(table));
  }

  /** So a dump can add to the accounts, which a restore is to leave alone. */
  lemma UsersCanBeWritten(db: Db)
    ensures var items := [Statement([INSERT_INTO, "users VALUES (1);"])];
      && Plain(items) && ItemsOk(items, PRESERVED_TABLES) && "users" in PRESERVED_TABLES
      && Rows(RestoredDb(db, Print(items), BUSINESS_TABLES, PRESERVED_TABLES), Local("users"))
           == Rows(db, Local("users")) + [Text([INSERT_INTO, "users VALUES (1);"])]
  {
    UsersPreserved();
    hide Plain, ItemsOk, RestoredDb, Print, Rows;
    HiddenTableIsWritten(db, BUSINESS_TABLES, PRESERVED_TABLES, "users");
    assert "users" + VALUES == "users VALUES (1);";
  }

  lemma UsersPreserved()
    ensures "users" in PRESERVED_TABLES && "users" !in BUSINESS_TABLES && PlainName("users")
  {
    assert PRESERVED_TABLES[0] == "users";
    assert "users"[0] != "parts"[0];
  }

  // ---- The transaction the restore runs in ----

  class Transaction {
    var tables: Db
    /** Statements and deletions the server refuses. */
    const rejects: set<string>
    const locked: set<string>

    constructor (held: Db, rejects: set<string>, locked: set<string>)
      ensures tables == held && this.rejects == rejects && this.locked == locked
    {
      tables := held;
      this.rejects, this.locked := rejects, locked;
    }

    method ExecRestoreStatement(stmt: string) returns (ok: bool)
      modifies this
      ensures ok <==> stmt !in rejects
      ensures tables == if ok then Insert(old(tables), stmt) else old(tables)
    {
      ok := stmt !in rejects;
      if ok {
        var t := ServerTarget(stmt);
        if t.Some? {
          tables := tables[t.value := Rows(tables, t.value) + [stmt]];
        }
      }
    }

    /** Empty the tables one by one, stopping at the first refusal. */
    method DeleteBusinessTables(business: seq<string>) returns (ok: bool)
      modifies this
      ensures ok <==> forall t :: t in business ==> t !in locked
      ensures ok ==> tables == Clear(old(tables), business)
    {
      var i := 0;
      while i < |business|
        invariant 0 <= i <= |business|
        invariant forall k :: 0 <= k < i ==> business[k] !in locked
        invariant Clear(tables, business[i..]) == Clear(old(tables), business)
      {
        if business[i] in locked {
          return false;
        }
        tables := tables[Local(business[i]) := []];
        i := i + 1;
      }
      return true;
    }

    /** Read the dump line by line and execute its statements; the first error stops the replay. */
    method ReplayDumpInserts(content: string, preserved: seq<string>) returns (statements: nat, error: Option<ReplayError>)
      modifies this
      ensures var r := Replay(content, preserved, rejects);
        error == r.error && statements == |r.executed| && tables == InsertAll(old(tables), r.executed)
    {
      hide Skips, StartsInsert, Ends, IsQualified, IsPreserved, Split, Insert;
      var lines := Split(content);
      var buf, inInsert := "", false;
      statements := 0;
      ghost var executed: seq<string> := [];
      var i := 0;
      while i < |lines|
        invariant 0 <= i <= |lines|
        invariant FeedAll(START, lines, preserved, rejects) == FeedAll(Scan(inInsert, buf, executed, None), lines[i..], preserved, rejects)
        invariant statements == |executed| && tables == InsertAll(old(tables), executed)
      {
        var line := lines[i];
        ghost var before := Scan(inInsert, buf, executed, None);
        i := i + 1;
        if Skips(line) {
          assert Feed(before, line, preserved, rejects) == before;
          continue;
        }
        if !inInsert {
          if !StartsInsert(line) {
            assert Feed(before, line, preserved, rejects) == before;
            continue;
          }
          if IsQualified(Trim(line)) {
            error := Some(QualifiedTarget);
            Stopped(Feed(before, line, preserved, rejects), lines[i..], preserved, rejects);
            return;
          }
          if IsPreserved(Trim(line), preserved) {
            assert Feed(before, line, preserved, rejects) == before;
            continue;
          }
          buf := line;
          inInsert := true;
        } else {
          buf := buf + "\n" + line;
        }
        if Ends(line) {
          var ok := ExecRestoreStatement(buf);
          if !ok {
            error := Some(Rejected);
            Stopped(Feed(before, line, preserved, rejects), lines[i..], preserved, rejects);
            return;
          }
          InsertAllParts(old(tables), executed, [buf]);
          executed := executed + [buf];
          statements := statements + 1;
          inInsert := false;
        }
        assert Feed(before, line, preserved, rejects) == Scan(inInsert, buf, executed, None);
      }
      error := if inInsert then Some(Unterminated) else None;
    }

    /** What runs inside the restore's transaction. */
    method ClearAndReplay(content: string, business: seq<string>, preserved: seq<string>) returns (ok: bool)
      modifies this
      ensures ok <==> (forall t :: t in business ==> t !in locked) && Replay(content, preserved, rejects).error.None?
      ensures ok ==> tables == InsertAll(Clear(old(tables), business), Replay(content, preserved, rejects).executed)
    {
      ok := DeleteBusinessTables(business);
      if ok {
        var _, error := ReplayDumpInserts(content, preserved);
        ok := error.None?;
      }
    }
  }
}

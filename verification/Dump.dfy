/** Restoring a dump: cutting it into INSERT statements, skipping the preserved tables, and what clear-and-replay
    leaves in every table. The table lists are parameters. */
module Dump {
  import opened Lines

  // ---- Reading one line ----

  /** Blank lines and comments are passed over everywhere, inside a statement too. */
  predicate Skips(line: string) {
    var t := Trim(line);
    t == "" || HasPrefix(t, "--") || HasPrefix(t, "/*")
  }

  const INSERT_INTO := "INSERT INTO"

  predicate StartsInsert(line: string) { HasPrefix(Upper(Trim(line)), INSERT_INTO) }

  predicate Ends(line: string) { HasSuffix(TrimRight(Trim(line)), ";") }

  function AfterInsert(stmt: string): string {
    if |stmt| < |INSERT_INTO| then "" else Trim(stmt[|INSERT_INTO|..])
  }

  predicate Quoted(rest: string) { rest != "" && (rest[0] == '`' || rest[0] == '"') }

  /** A schema in front of the table name; a period inside one quoted name does not count. */
  predicate IsQualified(stmt: string) {
    var rest := AfterInsert(stmt);
    if rest == "" then false
    else if Quoted(rest) then
      var end := IndexAny(rest[1..], {rest[0]});
      end.Some? && HasPrefix(Trim(rest[end.value + 2..]), ".")
    else
      var end := IndexAny(rest, {' ', '\t', '('});
      if end.None? then '.' in rest
      else '.' in rest[..end.value] || HasPrefix(Trim(rest[end.value..]), ".")
  }

  function Target(stmt: string): Option<string> {
    var rest := AfterInsert(stmt);
    if rest == "" then None
    else if Quoted(rest) then
      var end := IndexAny(rest[1..], {rest[0]});
      if end.Some? then Some(rest[1..1 + end.value]) else None
    else
      var end := IndexAny(rest, {' ', '\t', '('});
      Some(if end.Some? then rest[..end.value] else rest)
  }

  predicate IsPreserved(stmt: string, preserved: seq<string>) {
    Target(stmt).Some? && Target(stmt).value in preserved
  }

  // ---- The replay ----

  datatype ReplayError = QualifiedTarget | Rejected | Unterminated

  datatype Scan = Scan(inInsert: bool, buf: string, executed: seq<string>, error: Option<ReplayError>)

  const START := Scan(false, "", [], None)

  /** The server refuses the statements in `rejects`. */
  function Exec(s: Scan, rejects: set<string>): Scan {
    if s.buf in rejects then s.(error := Some(Rejected)) else s.(executed := s.executed + [s.buf], inInsert := false)
  }

  function Feed(s: Scan, line: string, preserved: seq<string>, rejects: set<string>): Scan {
    if s.error.Some? || Skips(line) then s
    else if s.inInsert then
      var s1 := s.(buf := s.buf + "\n" + line);
      if Ends(line) then Exec(s1, rejects) else s1
    else if !StartsInsert(line) then s
    else if IsQualified(Trim(line)) then s.(error := Some(QualifiedTarget))
    else if IsPreserved(Trim(line), preserved) then s
    else if Ends(line) then Exec(s.(buf := line), rejects)
    else s.(buf := line, inInsert := true)
  }

  function FeedAll(s: Scan, lines: seq<string>, preserved: seq<string>, rejects: set<string>): Scan
    decreases |lines|
  {
    if lines == [] then s else FeedAll(Feed(s, lines[0], preserved, rejects), lines[1..], preserved, rejects)
  }

  function Close(s: Scan): Scan {
    if s.error.None? && s.inInsert then s.(error := Some(Unterminated)) else s
  }

  function Replay(content: string, preserved: seq<string>, rejects: set<string>): Scan {
    Close(FeedAll(START, Split(content), preserved, rejects))
  }

  lemma {:induction false} FeedParts(s: Scan, a: seq<string>, b: seq<string>, preserved: seq<string>, rejects: set<string>)
    ensures FeedAll(s, a + b, preserved, rejects) == FeedAll(FeedAll(s, a, preserved, rejects), b, preserved, rejects)
    decreases |a|
  {
    if a == [] {
      assert a + b == b;
    } else {
      assert (a + b)[1..] == a[1..] + b;
      FeedParts(Feed(s, a[0], preserved, rejects), a[1..], b, preserved, rejects);
    }
  }

  // ---- Printed dumps ----

  /** What a dump is made of: a line that is no INSERT, or an INSERT statement over one or more lines. */
  datatype Item = Noise(line: string) | Statement(lines: seq<string>)

  function LinesOf(i: Item): seq<string> { if i.Noise? then [i.line] else i.lines }

  function AllLines(items: seq<Item>): seq<string> { if items == [] then [] else LinesOf(items[0]) + AllLines(items[1..]) }

  function Print(items: seq<Item>): string { Text(AllLines(items)) }

  /** The lines of a statement that the readers keep: the first, and every later one that is not skipped. */
  function Kept(lines: seq<string>): seq<string> {
    if lines == [] then [] else Kept(lines[..|lines| - 1]) + (if |lines| > 1 && Skips(lines[|lines| - 1]) then [] else [lines[|lines| - 1]])
  }

  function Body(i: Item): string { Text(Kept(LinesOf(i))) }

  /** Only the last line ends the statement, and it is not a comment; the target is not qualified; a statement of
      a preserved table has no later line that looks like a new INSERT. */
  predicate StatementOk(lines: seq<string>, preserved: seq<string>) {
    && lines != [] && StartsInsert(lines[0]) && !IsQualified(Trim(lines[0]))
    && (forall i :: 0 <= i < |lines| - 1 ==> !Ends(lines[i]) || (i > 0 && Skips(lines[i])))
    && Ends(lines[|lines| - 1]) && (|lines| > 1 ==> !Skips(lines[|lines| - 1]))
    && (IsPreserved(Trim(lines[0]), preserved) ==> forall i :: 0 < i < |lines| ==> Skips(lines[i]) || !StartsInsert(lines[i]))
  }

  predicate ItemOk(i: Item, preserved: seq<string>) {
    if i.Noise? then Skips(i.line) || !StartsInsert(i.line) else StatementOk(i.lines, preserved)
  }

  predicate Plain(items: seq<Item>) {
    forall i, k :: 0 <= i < |items| && 0 <= k < |LinesOf(items[i])| ==> OneLine(LinesOf(items[i])[k])
  }

  /** The item is a statement that a replay executes. */
  predicate Runs(i: Item, preserved: seq<string>) {
    i.Statement? && i.lines != [] && !IsPreserved(Trim(i.lines[0]), preserved)
  }

  function Head(i: Item, preserved: seq<string>): seq<string> { if Runs(i, preserved) then [Body(i)] else [] }

  /** The statements a replay should execute, in order. */
  function Wanted(items: seq<Item>, preserved: seq<string>): seq<string> {
    if items == [] then []
    else Head(items[0], preserved) + Wanted(items[1..], preserved)
  }

  lemma InsertIsNotSkipped(line: string)
    requires StartsInsert(line)
    ensures !Skips(line)
  {
    var t := Trim(line);
    assert Upper(t)[0] == INSERT_INTO[0];
    assert UpperChar(t[0]) == 'I';
  }

  lemma FeedLine(s: Scan, line: string, preserved: seq<string>, rejects: set<string>)
    ensures FeedAll(s, [line], preserved, rejects) == Feed(s, line, preserved, rejects)
  {
    hide Feed;
    assert [line][1..] == [];
  }

  /** The first line of several opens the statement. */
  lemma FeedFirstLine(s: Scan, lines: seq<string>, preserved: seq<string>, rejects: set<string>)
    requires StatementOk(lines, preserved) && !IsPreserved(Trim(lines[0]), preserved) && |lines| > 1
    requires !s.inInsert && s.error.None?
    ensures FeedAll(s, lines[..1], preserved, rejects) == Scan(true, lines[0], s.executed, None)
    ensures lines[..1] == [lines[0]] && Kept(lines[..1]) == [lines[0]]
  {
    var line := lines[0];
    InsertIsNotSkipped(line);
    assert !Ends(line) && StartsInsert(line) && !IsQualified(Trim(line));
    hide StatementOk, StartsInsert, Skips, Ends, IsQualified, IsPreserved, Trim;
    assert lines[..1] == [line] && [line][..0] == [];
    FeedLine(s, line, preserved, rejects);
  }

  lemma KeptSnoc(lines: seq<string>, k: nat)
    requires 1 < k <= |lines|
    ensures Kept(lines[..k]) == if Skips(lines[k - 1]) then Kept(lines[..k - 1]) else Kept(lines[..k - 1]) + [lines[k - 1]]
  {
    hide Skips;
    assert lines[..k][..k - 1] == lines[..k - 1];
  }

  lemma OneMoreLine(lines: seq<string>, k: nat)
    requires 0 < k <= |lines|
    ensures lines[..k] == lines[..k - 1] + [lines[k - 1]]
  {
  }

  /** Inside a statement a line that does not end it is added, or passed over. */
  lemma FeedInside(s: Scan, line: string, preserved: seq<string>, rejects: set<string>)
    requires s.inInsert && s.error.None? && (!Ends(line) || Skips(line))
    ensures Feed(s, line, preserved, rejects) == if Skips(line) then s else s.(buf := s.buf + "\n" + line)
  {
    hide Skips, Ends, StartsInsert, IsQualified, IsPreserved;
  }

  /** Reading the lines of a statement up to its last one. */
  lemma {:induction false} FeedOpen(s: Scan, lines: seq<string>, preserved: seq<string>, rejects: set<string>, k: nat)
    requires StatementOk(lines, preserved) && !IsPreserved(Trim(lines[0]), preserved)
    requires !s.inInsert && s.error.None? && 0 < k < |lines|
    ensures FeedAll(s, lines[..k], preserved, rejects) == Scan(true, Text(Kept(lines[..k])), s.executed, None)
    ensures Kept(lines[..k]) != []
    decreases k
  {
    if k == 1 {
      FeedFirstLine(s, lines, preserved, rejects);
    } else {
      var line := lines[k - 1];
      assert !Ends(line) || Skips(line);
      FeedOpen(s, lines, preserved, rejects, k - 1);
      var kept := Kept(lines[..k - 1]);
      var s0 := Scan(true, Text(kept), s.executed, None);
      hide StatementOk, StartsInsert, Skips, Ends, IsQualified, IsPreserved, Trim, FeedAll, Kept, Text, Feed;
      OneMoreLine(lines, k);
      FeedParts(s, lines[..k - 1], [line], preserved, rejects);
      FeedLine(s0, line, preserved, rejects);
      FeedInside(s0, line, preserved, rejects);
      KeptSnoc(lines, k);
      TextSnoc(kept, line);
    }
  }

  /** A statement on one line is executed at once. */
  lemma FeedOneLine(s: Scan, line: string, preserved: seq<string>, rejects: set<string>)
    requires StatementOk([line], preserved) && !IsPreserved(Trim(line), preserved) && !s.inInsert && s.error.None?
    ensures FeedAll(s, [line], preserved, rejects) == Exec(Scan(false, line, s.executed, None), rejects)
    ensures Kept([line]) == [line]
  {
    InsertIsNotSkipped(line);
    assert Ends([line][0]) && [line][1..] == [] && [line][..0] == [];
    hide StartsInsert, Skips, Ends, IsQualified, IsPreserved, Trim;
    assert FeedAll(s, [line], preserved, rejects) == FeedAll(Feed(s, line, preserved, rejects), [], preserved, rejects);
  }

  /** The last of several lines executes what has been read. */
  lemma FeedLastLine(s: Scan, lines: seq<string>, preserved: seq<string>, rejects: set<string>)
    requires StatementOk(lines, preserved) && !IsPreserved(Trim(lines[0]), preserved) && !s.inInsert && s.error.None?
    requires |lines| > 1
    ensures FeedAll(s, lines, preserved, rejects) == Exec(Scan(true, Text(Kept(lines)), s.executed, None), rejects)
  {
    hide StartsInsert, Skips, Ends, IsQualified, IsPreserved, Trim;
    var n := |lines| - 1;
    var line := lines[n];
    assert Ends(line) && !Skips(line);
    FeedOpen(s, lines, preserved, rejects, n);
    var kept := Kept(lines[..n]);
    hide StatementOk, FeedAll;
    var s0 := Scan(true, Text(kept), s.executed, None);
    assert lines == lines[..n] + [line];
    FeedParts(s, lines[..n], [line], preserved, rejects);
    FeedLine(s0, line, preserved, rejects);
    assert Kept(lines) == kept + [line];
    TextSnoc(kept, line);
  }

  lemma FeedToExec(s: Scan, lines: seq<string>, preserved: seq<string>, rejects: set<string>)
    requires StatementOk(lines, preserved) && !IsPreserved(Trim(lines[0]), preserved) && !s.inInsert && s.error.None?
    ensures FeedAll(s, lines, preserved, rejects) == Exec(Scan(|lines| > 1, Text(Kept(lines)), s.executed, None), rejects)
  {
    if |lines| > 1 {
      FeedLastLine(s, lines, preserved, rejects);
    } else {
      hide FeedAll, Kept, IsPreserved, Exec;
      assert lines == [lines[0]];
      FeedOneLine(s, lines[0], preserved, rejects);
    }
  }

  /** A statement that the server accepts is executed once, when its last line is read. */
  lemma FeedStatement(s: Scan, lines: seq<string>, preserved: seq<string>, rejects: set<string>)
    requires StatementOk(lines, preserved) && !IsPreserved(Trim(lines[0]), preserved)
    requires !s.inInsert && s.error.None? && Text(Kept(lines)) !in rejects
    ensures FeedAll(s, lines, preserved, rejects) == Scan(false, Text(Kept(lines)), s.executed + [Text(Kept(lines))], None)
  {
    FeedToExec(s, lines, preserved, rejects);
    hide FeedAll, StatementOk, IsPreserved, Kept, Text;
  }

  /** Lines that start no statement change nothing between statements. */
  lemma {:induction false} FeedIgnored(s: Scan, lines: seq<string>, preserved: seq<string>, rejects: set<string>)
    requires !s.inInsert && s.error.None?
    requires forall i :: 0 <= i < |lines| ==> Feed(s, lines[i], preserved, rejects) == s
    ensures FeedAll(s, lines, preserved, rejects) == s
    decreases |lines|
  {
    if lines != [] {
      FeedIgnored(s, lines[1..], preserved, rejects);
    }
  }

  lemma FeedItem(s: Scan, i: Item, preserved: seq<string>, rejects: set<string>)
    requires ItemOk(i, preserved) && !s.inInsert && s.error.None?
    requires Runs(i, preserved) ==> Body(i) !in rejects
    ensures var s1 := FeedAll(s, LinesOf(i), preserved, rejects);
      && !s1.inInsert && s1.error.None?
      && s1.executed == s.executed + Head(i, preserved)
  {
    if Runs(i, preserved) {
      FeedStatement(s, i.lines, preserved, rejects);
    } else {
      FeedIgnored(s, LinesOf(i), preserved, rejects);
    }
  }

  ghost predicate NoneRejected(texts: seq<string>, rejects: set<string>) { forall t :: t in texts ==> t !in rejects }

  ghost predicate ItemsOk(items: seq<Item>, preserved: seq<string>) {
    forall i :: 0 <= i < |items| ==> ItemOk(items[i], preserved)
  }

  lemma FirstIsOk(items: seq<Item>, preserved: seq<string>)
    requires items != [] && ItemsOk(items, preserved)
    ensures ItemOk(items[0], preserved) && ItemsOk(items[1..], preserved)
  {
    hide ItemOk;
  }

  lemma WantedParts(items: seq<Item>, preserved: seq<string>, before: seq<string>)
    requires items != []
    ensures before + Wanted(items, preserved) == (before + Head(items[0], preserved)) + Wanted(items[1..], preserved)
  {
    hide Head;
  }

  lemma RejectedParts(items: seq<Item>, preserved: seq<string>, rejects: set<string>)
    requires items != [] && NoneRejected(Wanted(items, preserved), rejects)
    ensures NoneRejected(Wanted(items[1..], preserved), rejects)
    ensures Runs(items[0], preserved) ==> Body(items[0]) !in rejects
  {
    hide Runs, Body;
    var head, rest := Head(items[0], preserved), Wanted(items[1..], preserved);
    assert Wanted(items, preserved) == head + rest;
    assert forall t :: t in rest ==> t in head + rest;
    if Runs(items[0], preserved) {
      assert head[0] == Body(items[0]) && head[0] in head + rest;
    }
  }

  lemma {:induction false} FeedPrinted(s: Scan, items: seq<Item>, preserved: seq<string>, rejects: set<string>)
    requires ItemsOk(items, preserved)
    requires NoneRejected(Wanted(items, preserved), rejects)
    requires !s.inInsert && s.error.None?
    ensures var s1 := FeedAll(s, AllLines(items), preserved, rejects);
      !s1.inInsert && s1.error.None? && s1.executed == s.executed + Wanted(items, preserved)
    decreases |items|
  {
    if items != [] {
      hide ItemOk, ItemsOk, Runs, Feed, FeedAll, Body, Head, LinesOf, NoneRejected, Wanted;
      var first, rest := items[0], items[1..];
      assert ItemOk(first, preserved) && ItemsOk(rest, preserved) by { FirstIsOk(items, preserved); }
      WantedParts(items, preserved, s.executed);
      RejectedParts(items, preserved, rejects);
      FeedParts(s, LinesOf(first), AllLines(rest), preserved, rejects);
      FeedItem(s, first, preserved, rejects);
      FeedPrinted(FeedAll(s, LinesOf(first), preserved, rejects), rest, preserved, rejects);
    }
  }

  lemma {:induction false} PrintedLines(items: seq<Item>)
    requires Plain(items)
    ensures forall k :: 0 <= k < |AllLines(items)| ==> OneLine(AllLines(items)[k])
    decreases |items|
  {
    if items != [] {
      assert forall k :: 0 <= k < |LinesOf(items[0])| ==> OneLine(LinesOf(items[0])[k]);
      PrintedLines(items[1..]);
    }
  }

  /** After an error nothing more is read. */
  lemma {:induction false} Stopped(s: Scan, lines: seq<string>, preserved: seq<string>, rejects: set<string>)
    requires s.error.Some?
    ensures FeedAll(s, lines, preserved, rejects) == s
    decreases |lines|
  {
    if lines != [] {
      Stopped(s, lines[1..], preserved, rejects);
    }
  }

  /** A statement that the server refuses ends the replay. */
  lemma FeedRefused(s: Scan, lines: seq<string>, preserved: seq<string>, rejects: set<string>)
    requires StatementOk(lines, preserved) && !IsPreserved(Trim(lines[0]), preserved)
    requires !s.inInsert && s.error.None? && Text(Kept(lines)) in rejects
    ensures var s1 := FeedAll(s, lines, preserved, rejects); s1.error == Some(Rejected) && s1.executed == s.executed
  {
    FeedToExec(s, lines, preserved, rejects);
    hide FeedAll, StatementOk, IsPreserved, Kept, Text;
  }

  lemma SomeRejected(items: seq<Item>, preserved: seq<string>, rejects: set<string>)
    requires items != [] && !NoneRejected(Wanted(items, preserved), rejects)
    requires Runs(items[0], preserved) ==> Body(items[0]) !in rejects
    ensures !NoneRejected(Wanted(items[1..], preserved), rejects)
  {
    hide Runs, Body;
    var t :| t in Wanted(items, preserved) && t in rejects;
    var head, rest := Head(items[0], preserved), Wanted(items[1..], preserved);
    assert t in head + rest;
  }

  lemma {:induction false} FeedSomeRefused(s: Scan, items: seq<Item>, preserved: seq<string>, rejects: set<string>)
    requires ItemsOk(items, preserved) && !NoneRejected(Wanted(items, preserved), rejects)
    requires !s.inInsert && s.error.None?
    ensures FeedAll(s, AllLines(items), preserved, rejects).error == Some(Rejected)
    decreases |items|
  {
    assert items != [];
    hide Feed, FeedAll, Body, LinesOf, NoneRejected, Wanted, Head, Runs;
    var first, rest := items[0], items[1..];
    FeedParts(s, LinesOf(first), AllLines(rest), preserved, rejects);
    FirstIsOk(items, preserved);
    if Runs(first, preserved) && Body(first) in rejects {
      ItemRefused(s, first, preserved, rejects);
      Stopped(FeedAll(s, LinesOf(first), preserved, rejects), AllLines(rest), preserved, rejects);
    } else {
      FeedItem(s, first, preserved, rejects);
      SomeRejected(items, preserved, rejects);
      FeedSomeRefused(FeedAll(s, LinesOf(first), preserved, rejects), rest, preserved, rejects);
    }
  }

  lemma ItemRefused(s: Scan, i: Item, preserved: seq<string>, rejects: set<string>)
    requires ItemOk(i, preserved) && Runs(i, preserved) && Body(i) in rejects && !s.inInsert && s.error.None?
    ensures FeedAll(s, LinesOf(i), preserved, rejects).error == Some(Rejected)
  {
    hide StatementOk, IsPreserved, Kept, Text, Feed;
    FeedRefused(s, i.lines, preserved, rejects);
  }

  /** The replay of a printed dump reports no error exactly when the server refuses none of its wanted statements. */
  lemma ReplaySucceedsIff(items: seq<Item>, preserved: seq<string>, rejects: set<string>)
    requires Plain(items) && ItemsOk(items, preserved)
    ensures Replay(Print(items), preserved, rejects).error.None? <==> NoneRejected(Wanted(items, preserved), rejects)
  {
    hide ItemOk, Feed, NoneRejected, ItemsOk;
    if NoneRejected(Wanted(items, preserved), rejects) {
      ReplayUndoesPrint(items, preserved, rejects);
    } else {
      FeedSomeRefused(START, items, preserved, rejects);
      var lines := AllLines(items);
      if lines != [] {
        PrintedLines(items);
        SplitText(lines);
      }
    }
  }

  /** Replaying a printed dump executes exactly its statements of tables that are not preserved, in order, each
      without its blank and comment lines. */
  lemma ReplayUndoesPrint(items: seq<Item>, preserved: seq<string>, rejects: set<string>)
    requires Plain(items) && ItemsOk(items, preserved)
    requires NoneRejected(Wanted(items, preserved), rejects)
    ensures Replay(Print(items), preserved, rejects).executed == Wanted(items, preserved)
    ensures Replay(Print(items), preserved, rejects).error.None?
  {
    hide ItemOk, Feed, NoneRejected;
    var lines := AllLines(items);
    FeedPrinted(START, items, preserved, rejects);
    if lines == [] {
      assert FeedAll(START, [""], preserved, rejects) == FeedAll(Feed(START, "", preserved, rejects), [], preserved, rejects);
      assert Split(Print(items)) == [""];
      BlankLineIgnored(START, preserved, rejects);
    } else {
      PrintedLines(items);
      SplitText(lines);
    }
  }

  lemma BlankLineIgnored(s: Scan, preserved: seq<string>, rejects: set<string>)
    ensures Feed(s, "", preserved, rejects) == s
  {
  }

  // ---- When a statement arrives word for word ----

  lemma {:induction false} KeptShrinks(lines: seq<string>)
    ensures |Kept(lines)| <= |lines|
    ensures Kept(lines) == lines <==> forall i :: 0 < i < |lines| ==> !Skips(lines[i])
    ensures forall x :: x in Kept(lines) ==> x in lines
    ensures lines != [] ==> Kept(lines) != [] && Kept(lines)[0] == lines[0]
    decreases |lines|
  {
    if lines != [] {
      var n := |lines| - 1;
      KeptShrinks(lines[..n]);
      assert lines == lines[..n] + [lines[n]];
      if n > 0 && Skips(lines[n]) {
        assert Kept(lines) == Kept(lines[..n]);
      }
      assert forall i :: 0 < i < n ==> lines[..n][i] == lines[i];
    }
  }

  /** A statement is executed as it was printed exactly when none of its later lines is blank or a comment: such a
      line inside a text value is lost. */
  lemma VerbatimIff(lines: seq<string>)
    requires lines != [] && forall i :: 0 <= i < |lines| ==> OneLine(lines[i])
    ensures Text(Kept(lines)) == Text(lines) <==> forall i :: 0 < i < |lines| ==> !Skips(lines[i])
  {
    KeptShrinks(lines);
    var kept := Kept(lines);
    forall i | 0 <= i < |kept| ensures OneLine(kept[i]) {
      assert kept[i] in lines;
    }
    if Text(kept) == Text(lines) {
      TextInjective(kept, lines);
    }
  }

  const VALUE_OPENS := "INSERT INTO `t` VALUES ('a"

  const VALUE_ENDS := "b');"

  lemma {:induction false} BlankIsSkipped(blank: string)
    requires forall c :: c in blank ==> IsSpace(c)
    ensures TrimLeft(blank) == "" && Skips(blank)
  {
    if blank != "" {
      BlankIsSkipped(blank[1..]);
    }
  }

  /** Concretely: any line of white space inside a text value, ideographic spaces too, is gone from the statement
      that is executed. */
  lemma BlankLineInValueIsLost(blank: string)
    requires OneLine(blank) && forall c :: c in blank ==> IsSpace(c)
    ensures Replay(Text([VALUE_OPENS, blank, VALUE_ENDS]), [], {}).executed == [Text([VALUE_OPENS, VALUE_ENDS])]
    ensures Text([VALUE_OPENS, blank, VALUE_ENDS]) != Text([VALUE_OPENS, VALUE_ENDS])
    ensures IsSpace('\U{3000}')
  {
    BlankIsSkipped(blank);
    OpeningLine();
    EndingLine();
    hide Skips, StartsInsert, Ends, IsQualified, IsPreserved, OneLine, Replay, Text, Trim;
    ThreeLines(VALUE_OPENS, blank, VALUE_ENDS);
  }

  /** A statement of three lines whose middle one is skipped. */
  lemma ThreeLines(first: string, middle: string, last: string)
    requires OneLine(first) && OneLine(middle) && OneLine(last)
    requires StartsInsert(first) && !Skips(first) && !Ends(first) && !IsQualified(Trim(first)) && !IsPreserved(Trim(first), [])
    requires Skips(middle) && !Skips(last) && Ends(last)
    ensures Replay(Text([first, middle, last]), [], {}).executed == [Text([first, last])]
    ensures Text([first, middle, last]) != Text([first, last])
  {
    hide Skips, StartsInsert, Ends, IsQualified, IsPreserved, Split, OneLine;
    var lines := [first, middle, last];
    SplitText(lines);
    SplitText([first, last]);
    var s1 := Scan(true, first, [], None);
    assert lines[1..] == [middle, last] && lines[1..][1..] == [last] && [first, last][1..] == [last];
    assert FeedAll(START, lines, [], {}) == FeedAll(s1, lines[1..], [], {}) == FeedAll(s1, [last], [], {});
    assert FeedAll(s1, [last], [], {}) == FeedAll(Feed(s1, last, [], {}), [last][1..], [], {});
  }

  lemma EndingLine()
    ensures OneLine(VALUE_ENDS) && !Skips(VALUE_ENDS) && Ends(VALUE_ENDS) && OneLine("") && Skips("")
  {
    hide Trim, TrimRight;
    Trimmed(VALUE_ENDS);
    assert Trim("") == "" by { EmptyTrimmed(); }
    assert VALUE_ENDS[|VALUE_ENDS| - 1..] == ";";
  }

  lemma OpeningLine()
    ensures OneLine(VALUE_OPENS) && StartsInsert(VALUE_OPENS) && !Skips(VALUE_OPENS) && !Ends(VALUE_OPENS)
    ensures !IsQualified(Trim(VALUE_OPENS)) && !IsPreserved(Trim(VALUE_OPENS), [])
  {
    OpeningIsTrimmed();
    OpeningKeyword();
    OpeningTarget();
    hide IsQualified, Target, Trim, TrimRight, Upper;
    InsertIsNotSkipped(VALUE_OPENS);
    assert VALUE_OPENS[|VALUE_OPENS| - 1] == 'a';
  }

  lemma OpeningIsTrimmed()
    ensures Trim(VALUE_OPENS) == VALUE_OPENS && TrimRight(VALUE_OPENS) == VALUE_OPENS
  {
    Trimmed(VALUE_OPENS);
  }

  lemma OpeningKeyword()
    ensures HasPrefix(Upper(VALUE_OPENS), INSERT_INTO) && OneLine(VALUE_OPENS)
  {
    assert forall i :: 0 <= i < 11 ==> Upper(VALUE_OPENS)[i] == UpperChar(VALUE_OPENS[i]);
  }

  lemma EmptyTrimmed()
    ensures Trim("") == ""
  {
  }

  lemma OpeningTarget()
    ensures !IsQualified(Trim(VALUE_OPENS))
  {
    hide IsQualified, Target, IsSpace, Trim;
    var tail := " VALUES ('a";
    assert VALUE_OPENS == "INSERT INTO `" + "t" + "`" + tail;
    PrintedLine("t", tail);
    NameReadBack(Printed("t", tail));
    Visible(tail[1]);
    TailTrimmed(tail);
  }

  lemma TailTrimmed(tail: string)
    requires |tail| > 1 && tail[0] == ' ' && !IsSpace(tail[1]) && tail[1] != '.'
    ensures !HasPrefix(Trim(tail), ".")
  {
    var t := TrimLeft(tail);
    assert tail[1..][0] == tail[1];
    assert t == TrimLeft(tail[1..]) == tail[1..];
    TrimRightHead(t);
  }

  // ---- The tests of a line, spelled out ----

  /** Trimming after a head that ends in a visible character touches the tail only. */
  lemma HeadTrimmed(head: string, tail: string)
    requires head != "" && !IsSpace(head[0]) && !IsSpace(head[|head| - 1])
    ensures Trim(head + tail) == head + TrimRight(tail)
  {
    hide IsSpace, TrimRight;
    assert (head + tail)[0] == head[0];
    TrimRightAfter(head, tail);
  }

  predicate IsKeyword(s: string) { Upper(s) == INSERT_INTO }

  lemma KeywordVisible(keyword: string)
    requires IsKeyword(keyword)
    ensures |keyword| == |INSERT_INTO| && !IsSpace(keyword[0]) && !IsSpace(keyword[|keyword| - 1])
  {
    assert Upper(keyword)[0] == UpperChar(keyword[0]) == 'I';
    assert Upper(keyword)[|keyword| - 1] == UpperChar(keyword[|keyword| - 1]) == 'O';
  }

  /** A line opens a statement exactly when, after white space, it starts with the keyword in any case. */
  lemma StartsInsertIff(line: string)
    ensures StartsInsert(line) <==>
      exists lead, keyword, rest :: AllSpace(lead) && IsKeyword(keyword) && line == lead + keyword + rest
  {
    if StartsInsert(line) {
      var lead, trail := TrimParts(line);
      var t := Trim(line);
      var keyword, rest := t[..|INSERT_INTO|], t[|INSERT_INTO|..] + trail;
      assert IsKeyword(keyword) by { UpperPrefix(t, |INSERT_INTO|); }
      assert t == keyword + t[|INSERT_INTO|..];
      hide Trim, AllSpace, IsKeyword;
      assert line == lead + keyword + rest;
    }
    if lead, keyword, rest :| AllSpace(lead) && IsKeyword(keyword) && line == lead + keyword + rest {
      OpensAfterSpace(lead, keyword, rest);
    }
  }

  lemma UpperPrefix(s: string, n: nat)
    requires n <= |s|
    ensures Upper(s[..n]) == Upper(s)[..n]
  {
  }

  lemma OpensAfterSpace(lead: string, keyword: string, rest: string)
    requires AllSpace(lead) && IsKeyword(keyword)
    ensures Trim(lead + keyword + rest) == keyword + TrimRight(rest) && StartsInsert(lead + keyword + rest)
  {
    KeywordVisible(keyword);
    hide IsSpace, AllSpace, TrimRight, TrimLeft;
    var s := keyword + TrimRight(rest);
    assert Trim(lead + keyword + rest) == s by {
      hide Trim;
      assert lead + keyword + rest == lead + (keyword + rest);
      LeadIgnored(lead, keyword + rest);
      HeadTrimmed(keyword, rest);
    }
    hide Trim;
    assert s[..|INSERT_INTO|] == keyword;
    UpperPrefix(s, |INSERT_INTO|);
  }

  /** A line ends a statement exactly when its last visible character is a semicolon. */
  lemma EndsIff(line: string)
    ensures Ends(line) <==> exists body, trail :: AllSpace(trail) && line == body + ";" + trail
  {
    if Ends(line) {
      var lead, trail := TrimParts(line);
      var t := Trim(line);
      TrimRightTwice(TrimLeft(line));
      assert t == t[..|t| - 1] + ";";
      hide Trim, TrimRight, AllSpace;
      assert line == (lead + t[..|t| - 1]) + ";" + trail;
    }
    if body, trail :| AllSpace(trail) && line == body + ";" + trail {
      Visible(';');
      TrailIgnored(body + ";", trail);
      EndsWithSemicolon(line, body);
    }
  }

  lemma EndsWithSemicolon(line: string, body: string)
    requires TrimRight(line) == TrimRight(body + ";")
    ensures Ends(line)
  {
    Visible(';');
    var s := body + ";";
    TrimIgnoresRight(line);
    TrimIgnoresRight(s);
    assert TrimLeft(s) != "" && TrimLeft(s)[|TrimLeft(s)| - 1] == ';' by { LastStays(s); }
    hide IsSpace;
    assert Trim(s) == TrimLeft(s);
    assert TrimRight(Trim(line)) == TrimLeft(s);
  }

  /** The last character of a text, if it is visible, is the last after trimming the left end. */
  lemma {:induction false} LastStays(s: string)
    requires s != "" && !IsSpace(s[|s| - 1])
    ensures TrimLeft(s) != "" && TrimLeft(s)[|TrimLeft(s)| - 1] == s[|s| - 1]
    decreases |s|
  {
    hide IsSpace;
    if IsSpace(s[0]) {
      assert s[1..] != "" && s[1..][|s[1..]| - 1] == s[|s| - 1];
      LastStays(s[1..]);
    }
  }

  /** A line is passed over exactly when it is white space or, after white space, starts a comment. */
  lemma SkipsIff(line: string)
    ensures Skips(line) <==>
      AllSpace(line) || exists lead, mark, rest :: AllSpace(lead) && (mark == "--" || mark == "/*") && line == lead + mark + rest
  {
    if Skips(line) {
      var lead, trail := TrimParts(line);
      var t := Trim(line);
      if t == "" {
        assert line == lead + trail;
      } else {
        var mark, rest := t[..2], t[2..] + trail;
        assert t == mark + t[2..] && (mark == "--" || mark == "/*");
        hide Trim, AllSpace, Skips;
        assert line == lead + mark + rest;
      }
    }
    if AllSpace(line) {
      LeadIgnored(line, "");
      assert line + "" == line;
    }
    if lead, mark, rest :| AllSpace(lead) && (mark == "--" || mark == "/*") && line == lead + mark + rest {
      CommentIsSkipped(lead, mark, rest);
    }
  }

  lemma CommentIsSkipped(lead: string, mark: string, rest: string)
    requires AllSpace(lead) && (mark == "--" || mark == "/*")
    ensures Skips(lead + mark + rest)
  {
    Visible(mark[0]);
    Visible(mark[1]);
    hide IsSpace, AllSpace, TrimRight, TrimLeft;
    assert Trim(lead + mark + rest) == mark + TrimRight(rest) by {
      hide Trim;
      assert lead + mark + rest == lead + (mark + rest);
      LeadIgnored(lead, mark + rest);
      HeadTrimmed(mark, rest);
    }
    hide Trim;
    assert (mark + TrimRight(rest))[..2] == mark;
  }

  // ---- The first line of a statement ----

  /** How the table's name is written. */
  datatype Form = Ticked | DoubleQuoted | Bare

  /** A first line: white space, the keyword in any case, white space, the name, and what follows it. */
  datatype Opening = Opening(lead: string, keyword: string, gap: string, form: Form, name: string, tail: string)

  function Written(form: Form, name: string): string {
    match form
    case Ticked => "`" + name + "`"
    case DoubleQuoted => "\"" + name + "\""
    case Bare => name
  }

  function LineOf(o: Opening): string { o.lead + o.keyword + o.gap + Written(o.form, o.name) + o.tail }

  /** Space and tab. */
  predicate Gap(s: string) { forall i :: 0 <= i < |s| ==> s[i] == ' ' || s[i] == '\t' }

  predicate BareWord(name: string) {
    name != "" && !Quoted(name) && forall i :: 0 <= i < |name| ==> !IsSpace(name[i]) && name[i] != '('
  }

  /** The quote does not occur in a quoted name; a bare one has no period, and ends at a space, a tab or a bracket. */
  predicate OpeningOk(o: Opening) {
    && Gap(o.lead) && IsKeyword(o.keyword) && Gap(o.gap)
    && match o.form
       case Ticked => '`' !in o.name
       case DoubleQuoted => '"' !in o.name
       case Bare => BareWord(o.name) && '.' !in o.name && (o.tail == "" || o.tail[0] in {' ', '\t', '('})
  }

  lemma GapIsSpace(s: string)
    requires Gap(s)
    ensures AllSpace(s)
  {
  }

  /** What stands after the keyword, trimmed. */
  lemma OpeningRest(lead: string, keyword: string, gap: string, written: string, tail: string)
    requires Gap(lead) && IsKeyword(keyword) && Gap(gap)
    requires written != "" && !IsSpace(written[0]) && !IsSpace(written[|written| - 1])
    ensures var line := lead + keyword + gap + written + tail;
      StartsInsert(line) && AfterInsert(Trim(line)) == written + TrimRight(tail)
  {
    hide IsSpace, TrimRight, TrimLeft, Trim, Gap, AllSpace, StartsInsert;
    var rest := gap + written + tail;
    GapIsSpace(lead);
    GapIsSpace(gap);
    KeywordVisible(keyword);
    assert lead + keyword + gap + written + tail == lead + keyword + rest;
    OpensAfterSpace(lead, keyword, rest);
    assert TrimRight(rest) == gap + written + TrimRight(tail) by {
      assert rest == (gap + written) + tail && (gap + written)[|gap + written| - 1] == written[|written| - 1];
      TrimRightAfter(gap + written, tail);
    }
    var end := TrimRight(tail);
    assert (keyword + TrimRight(rest))[|INSERT_INTO|..] == gap + (written + end);
    LeadIgnored(gap, written + end);
    HeadTrimmed(written, end);
    TrimRightTwice(tail);
  }

  lemma WrittenVisible(o: Opening)
    requires OpeningOk(o)
    ensures var w := Written(o.form, o.name); w != "" && !IsSpace(w[0]) && !IsSpace(w[|w| - 1])
  {
    Visible('`');
    Visible('"');
  }

  /** The name on a statement's first line is read back as it was written, in each of the three forms, and counts as
      qualified exactly when a period follows it. */
  lemma NameReadBack(o: Opening)
    requires OpeningOk(o)
    ensures var stmt := Trim(LineOf(o));
      && StartsInsert(LineOf(o)) && Target(stmt) == Some(o.name) && (IsQualified(stmt) <==> HasPrefix(Trim(o.tail), "."))
  {
    var end := TrimRight(o.tail);
    WrittenVisible(o);
    OpeningRest(o.lead, o.keyword, o.gap, Written(o.form, o.name), o.tail);
    TrimIgnoresRight(o.tail);
    match o.form {
      case Ticked => QuotedEnd('`', o.name, end);
      case DoubleQuoted => QuotedEnd('"', o.name, end);
      case Bare => BareEnd(o.name, end, o.tail);
    }
    hide Trim, IndexAny, AfterInsert, TrimRight, StartsInsert;
  }

  lemma QuotedEnd(quote: char, name: string, end: string)
    requires quote !in name && (quote == '`' || quote == '"')
    ensures var rest := [quote] + name + [quote] + end;
      && Quoted(rest) && rest[0] == quote && IndexAny(rest[1..], {quote}) == Some(|name|)
      && rest[|name| + 2..] == end && rest[1..1 + |name|] == name
  {
    var rest := [quote] + name + [quote] + end;
    assert rest[1..] == name + ([quote] + end);
    assert rest[1..][|name|] == quote;
  }

  /** A bare name ends at the first space, tab or bracket after it. */
  lemma BareEnd(name: string, end: string, tail: string)
    requires BareWord(name) && (tail == "" || tail[0] in {' ', '\t', '('}) && end == TrimRight(tail)
    ensures var rest := name + end; var e := IndexAny(rest, {' ', '\t', '('});
      && !Quoted(rest) && rest != ""
      && (end == "" ==> e.None? && rest == name && Trim(end) == "")
      && (end != "" ==> e == Some(|name|) && rest[..|name|] == name && rest[|name|..] == end)
  {
    var rest := name + end;
    assert rest[0] == name[0];
    if end != "" {
      var trail := RightPart(tail);
      assert end[0] == tail[0];
      assert rest[|name|] == end[0];
    } else {
      assert rest == name;
    }
  }

  /** A bare name with a period in it is qualified. */
  lemma PeriodIsQualified(lead: string, keyword: string, gap: string, name: string, tail: string)
    requires Gap(lead) && IsKeyword(keyword) && Gap(gap)
    requires BareWord(name) && '.' in name && (tail == "" || tail[0] in {' ', '\t', '('})
    ensures IsQualified(Trim(lead + keyword + gap + name + tail))
  {
    OpeningRest(lead, keyword, gap, name, tail);
    BareEnd(name, TrimRight(tail), tail);
    hide Trim, IndexAny, AfterInsert, TrimRight, StartsInsert;
  }

  /** A quote that is not closed on the line names no table. */
  lemma UnclosedNamesNone(lead: string, keyword: string, gap: string, quote: char, rest: string)
    requires Gap(lead) && IsKeyword(keyword) && Gap(gap) && (quote == '`' || quote == '"') && quote !in rest
    ensures var stmt := Trim(lead + keyword + gap + [quote] + rest); Target(stmt) == None && !IsQualified(stmt)
  {
    Visible(quote);
    OpeningRest(lead, keyword, gap, [quote], rest);
    var trail := RightPart(rest);
    var end := TrimRight(rest);
    assert forall i :: 0 <= i < |end| ==> end[i] == rest[i] && rest[i] != quote;
    assert ([quote] + end)[1..] == end;
    hide Trim, AfterInsert, TrimRight, StartsInsert;
  }

  /** The form a dump tool prints: the keyword, a space, the name in back quotes. */
  function Printed(name: string, tail: string): Opening { Opening("", INSERT_INTO, " ", Ticked, name, tail) }

  lemma PrintedLine(name: string, tail: string)
    requires '`' !in name
    ensures LineOf(Printed(name, tail)) == "INSERT INTO `" + name + "`" + tail && OpeningOk(Printed(name, tail))
  {
    assert Upper(INSERT_INTO) == INSERT_INTO;
    assert "" + INSERT_INTO + " " + ("`" + name + "`") + tail == "INSERT INTO `" + name + "`" + tail;
  }

  lemma SpaceTrimmed(s: string)
    requires s != "" && !IsSpace(s[0])
    ensures TrimLeft(" " + s) == s
  {
    assert (" " + s)[1..] == s;
  }
}

/** A dump that cannot be replayed to its end: where the replay stops, what it has executed by then, and what it says. */
module Unfinished {
  import opened Lines
  import opened Dump

  /** Printed items and then further lines, as one text. */
  lemma FeedItemsThen(items: seq<Item>, more: seq<string>, preserved: seq<string>, rejects: set<string>)
    requires Plain(items) && ItemsOk(items, preserved) && NoneRejected(Wanted(items, preserved), rejects)
    requires more != [] && forall k :: 0 <= k < |more| ==> OneLine(more[k])
    ensures var s := FeedAll(START, AllLines(items), preserved, rejects);
      && !s.inInsert && s.error.None? && s.executed == Wanted(items, preserved)
      && Replay(Text(AllLines(items) + more), preserved, rejects) == Close(FeedAll(s, more, preserved, rejects))
  {
    PrintedLines(items);
    hide ItemsOk, NoneRejected, Plain, Feed, OneLine, Text, Split;
    FeedPrinted(START, items, preserved, rejects);
    SplitText(AllLines(items) + more);
    FeedParts(START, AllLines(items), more, preserved, rejects);
  }

  /** A statement that names another schema stops the replay: what came before it has been executed, nothing after it is,
      and the error says so. */
  lemma QualifiedStopsReplay(items: seq<Item>, line: string, after: seq<string>, preserved: seq<string>, rejects: set<string>)
    requires Plain(items) && ItemsOk(items, preserved) && NoneRejected(Wanted(items, preserved), rejects)
    requires OneLine(line) && forall k :: 0 <= k < |after| ==> OneLine(after[k])
    requires StartsInsert(line) && IsQualified(Trim(line))
    ensures var s := Replay(Text(AllLines(items) + ([line] + after)), preserved, rejects);
      s.error == Some(QualifiedTarget) && s.executed == Wanted(items, preserved)
  {
    var s := FeedAll(START, AllLines(items), preserved, rejects);
    assert ([line] + after)[1..] == after;
    FeedItemsThen(items, [line] + after, preserved, rejects);
    InsertIsNotSkipped(line);
    hide ItemsOk, NoneRejected, Plain, OneLine, Text, Split, Skips, StartsInsert, IsQualified, IsPreserved, Trim, Wanted, AllLines;
    Stopped(Feed(s, line, preserved, rejects), after, preserved, rejects);
  }

  /** The lines open a statement and never end it. */
  predicate StaysOpen(lines: seq<string>) {
    && lines != [] && StartsInsert(lines[0]) && !IsQualified(Trim(lines[0])) && !Ends(lines[0])
    && (forall i :: 0 < i < |lines| ==> !Ends(lines[i]) || Skips(lines[i]))
  }

  lemma Semicolon()
    ensures Ends(";") && !Skips(";") && !StartsInsert(";")
  {
    Trimmed(";");
    hide Trim, TrimRight, Upper;
    assert ";"[0..] == ";";
  }

  lemma OpenIsBegun(lines: seq<string>, preserved: seq<string>)
    requires StaysOpen(lines) && !IsPreserved(Trim(lines[0]), preserved)
    ensures StatementOk(lines + [";"], preserved)
  {
    Semicolon();
    hide Ends, Skips, StartsInsert, IsQualified, IsPreserved, Trim;
  }

  lemma FeedUnended(s: Scan, lines: seq<string>, preserved: seq<string>, rejects: set<string>)
    requires StaysOpen(lines) && !IsPreserved(Trim(lines[0]), preserved) && !s.inInsert && s.error.None?
    ensures FeedAll(s, lines, preserved, rejects) == Scan(true, Text(Kept(lines)), s.executed, None)
  {
    OpenIsBegun(lines, preserved);
    var all := lines + [";"];
    assert all[..|lines|] == lines && all[0] == lines[0];
    hide StaysOpen, StatementOk, IsPreserved, Trim, FeedAll, Text, Kept;
    FeedOpen(s, all, preserved, rejects, |lines|);
  }

  /** A last statement without its end is reported and not executed; one of a preserved table is passed over in silence,
      as long as no later line of it looks like a new statement. */
  lemma UnterminatedIsReported(items: seq<Item>, lines: seq<string>, preserved: seq<string>, rejects: set<string>)
    requires Plain(items) && ItemsOk(items, preserved) && NoneRejected(Wanted(items, preserved), rejects)
    requires StaysOpen(lines) && forall k :: 0 <= k < |lines| ==> OneLine(lines[k])
    requires IsPreserved(Trim(lines[0]), preserved) ==> forall i :: 0 < i < |lines| ==> Skips(lines[i]) || !StartsInsert(lines[i])
    ensures var s := Replay(Text(AllLines(items) + lines), preserved, rejects);
      && s.executed == Wanted(items, preserved)
      && s.error == if IsPreserved(Trim(lines[0]), preserved) then None else Some(Unterminated)
  {
    FeedItemsThen(items, lines, preserved, rejects);
    var s := FeedAll(START, AllLines(items), preserved, rejects);
    if IsPreserved(Trim(lines[0]), preserved) {
      hide ItemsOk, NoneRejected, Plain, OneLine, Text, Split, Wanted, AllLines, FeedAll, IsPreserved, IsQualified, Ends, Skips, StartsInsert;
      assert forall i :: 0 <= i < |lines| ==> Feed(s, lines[i], preserved, rejects) == s;
      FeedIgnored(s, lines, preserved, rejects);
    } else {
      hide ItemsOk, NoneRejected, Plain, OneLine, Text, Split, Wanted, AllLines, FeedAll, StaysOpen, IsPreserved, Kept;
      FeedUnended(s, lines, preserved, rejects);
    }
  }
}

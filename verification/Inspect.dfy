/** The backup inspector: it cuts a dump into the same statements as the replay, and flags those that end inside a
    quote. */
module Inspect {
  import opened Lines
  import opened Dump

  // ---- Cutting ----

  datatype Cutter = Cutter(inInsert: bool, buf: string, cut: seq<string>)

  /** Inside a statement every line is taken, blank or not. */
  function CutLine(c: Cutter, line: string): Cutter {
    if !c.inInsert && (Skips(line) || !StartsInsert(line)) then c
    else
      var buf := if c.inInsert then c.buf + "\n" + line else line;
      if Ends(line) then Cutter(false, buf, c.cut + [buf]) else Cutter(true, buf, c.cut)
  }

  function CutAll(c: Cutter, lines: seq<string>): Cutter
    decreases |lines|
  {
    if lines == [] then c else CutAll(CutLine(c, lines[0]), lines[1..])
  }

  const FRESH := Cutter(false, "", [])

  function Cut(content: string): seq<string> { CutAll(FRESH, Split(content)).cut }

  lemma {:induction false} CutParts(c: Cutter, a: seq<string>, b: seq<string>)
    ensures CutAll(c, a + b) == CutAll(CutAll(c, a), b)
    decreases |a|
  {
    if a == [] {
      assert a + b == b;
    } else {
      assert (a + b)[1..] == a[1..] + b;
      CutParts(CutLine(c, a[0]), a[1..], b);
    }
  }

  // ---- The inspector against the replay ----

  /** No blank line and no comment inside a statement. */
  predicate Solid(i: Item) { i.Statement? ==> forall k :: 0 < k < |i.lines| ==> !Skips(i.lines[k]) }

  predicate AllSolid(items: seq<Item>) { forall i :: 0 <= i < |items| ==> Solid(items[i]) }

  lemma CutOne(c: Cutter, line: string)
    ensures CutAll(c, [line]) == CutLine(c, line)
  {
    hide CutLine;
    assert [line][1..] == [];
  }

  /** What was cut stays cut. */
  lemma {:induction false} CutGrows(c: Cutter, lines: seq<string>)
    ensures c.cut <= CutAll(c, lines).cut
    decreases |lines|
  {
    if lines != [] {
      CutGrows(CutLine(c, lines[0]), lines[1..]);
    }
  }

  lemma CutOpening(c: Cutter, line: string)
    requires StartsInsert(line) && !c.inInsert
    ensures CutLine(c, line) == if Ends(line) then Cutter(false, line, c.cut + [line]) else Cutter(true, line, c.cut)
  {
    InsertIsNotSkipped(line);
    hide Skips, StartsInsert, Ends;
  }

  /** The lines of an unfinished statement are all taken. */
  lemma {:induction false} CutOpen(c: Cutter, lines: seq<string>, k: nat)
    requires 0 < k <= |lines| && StartsInsert(lines[0]) && !c.inInsert
    requires forall i :: 0 <= i < k - 1 ==> !Ends(lines[i])
    ensures CutAll(c, lines[..k]) == (
      if Ends(lines[k - 1]) then Cutter(false, Text(lines[..k]), c.cut + [Text(lines[..k])])
      else Cutter(true, Text(lines[..k]), c.cut))
    decreases k
  {
    hide Skips, StartsInsert, Ends, CutAll, Text;
    var line := lines[k - 1];
    assert lines[..k] == lines[..k - 1] + [line];
    if k == 1 {
      CutOpening(c, line);
      CutOne(c, line);
      assert lines[..1] == [line] && Text([line]) == line by { OneLineText(line); }
    } else {
      CutOpen(c, lines, k - 1);
      CutParts(c, lines[..k - 1], [line]);
      CutOne(CutAll(c, lines[..k - 1]), line);
      TextSnoc(lines[..k - 1], line);
    }
  }

  lemma OneLineText(line: string)
    ensures Text([line]) == line
  {
  }

  /** The first line at which the inspector ends a statement. */
  lemma {:induction false} FirstEnd(lines: seq<string>, k: nat) returns (e: nat)
    requires k < |lines| && Ends(lines[|lines| - 1]) && forall i :: 0 <= i < k ==> !Ends(lines[i])
    ensures k <= e < |lines| && Ends(lines[e]) && forall i :: 0 <= i < e ==> !Ends(lines[i])
    decreases |lines| - k
  {
    hide Ends;
    if Ends(lines[k]) {
      e := k;
    } else {
      e := FirstEnd(lines, k + 1);
    }
  }

  /** From a statement's first line on, the inspector's next cut is a stretch of its lines up to one that ends it. */
  lemma NextCut(c: Cutter, lines: seq<string>) returns (e: nat)
    requires StatementOk(lines, []) && !c.inInsert
    ensures e < |lines| && Ends(lines[e]) && forall i :: 0 <= i < e ==> !Ends(lines[i])
    ensures CutAll(c, lines[..e + 1]) == Cutter(false, Text(lines[..e + 1]), c.cut + [Text(lines[..e + 1])])
    ensures CutAll(c, lines) == CutAll(CutAll(c, lines[..e + 1]), lines[e + 1..])
  {
    e := FirstEnd(lines, 0);
    assert StartsInsert(lines[0]);
    hide StatementOk, StartsInsert, Ends, CutAll;
    CutOpen(c, lines, e + 1);
    assert lines == lines[..e + 1] + lines[e + 1..];
    CutParts(c, lines[..e + 1], lines[e + 1..]);
  }

  lemma EarlyEndIsSkipped(lines: seq<string>, e: nat)
    requires StatementOk(lines, []) && e < |lines| && Ends(lines[e])
    ensures lines != [] && (e < |lines| - 1 ==> 0 < e && Skips(lines[e])) && (|lines| > 1 ==> !Skips(lines[|lines| - 1]))
  {
    hide Skips, Ends, StartsInsert, IsQualified, IsPreserved, Trim;
  }

  lemma KeptLast(lines: seq<string>)
    requires lines != [] && (|lines| > 1 ==> !Skips(lines[|lines| - 1]))
    ensures Kept(lines) != [] && Kept(lines)[|Kept(lines)| - 1] == lines[|lines| - 1]
  {
    hide Skips;
  }

  /** A stretch that ends at an ending line is what the replay keeps exactly when it is the whole, solid statement. */
  lemma StretchIsKeptIff(lines: seq<string>, e: nat)
    requires StatementOk(lines, []) && e < |lines| && Ends(lines[e]) && forall i :: 0 <= i < |lines| ==> OneLine(lines[i])
    ensures Text(lines[..e + 1]) == Text(Kept(lines)) <==> Solid(Statement(lines))
  {
    hide StatementOk, Skips, Ends, Kept, Text, OneLine, Trim;
    var kept := Kept(lines);
    EarlyEndIsSkipped(lines, e);
    KeptShrinks(lines);
    KeptLast(lines);
    if Solid(Statement(lines)) {
      assert lines[..e + 1] == lines;
    }
    if Text(lines[..e + 1]) == Text(kept) {
      forall i | 0 <= i < |kept| ensures OneLine(kept[i]) { assert kept[i] in lines; }
      TextInjective(lines[..e + 1], kept);
      assert lines[e] == lines[|lines| - 1];
      assert e == |lines| - 1;
      assert lines[..e + 1] == lines;
    }
  }

  /** A solid item adds the statement the replay executes; another one first adds something else. */
  lemma ItemCut(c: Cutter, i: Item) returns (t: string)
    requires ItemOk(i, []) && !c.inInsert && forall k :: 0 <= k < |LinesOf(i)| ==> OneLine(LinesOf(i)[k])
    ensures var c1 := CutAll(c, LinesOf(i));
      if Solid(i) then !c1.inInsert && c1.cut == c.cut + Head(i, [])
      else Head(i, []) == [Body(i)] && t != Body(i) && c.cut + [t] <= c1.cut
  {
    t := "";
    if i.Statement? {
      assert i.lines != [] && !IsPreserved(Trim(i.lines[0]), []);
      assert LinesOf(i) == i.lines && forall k :: 0 <= k < |i.lines| ==> OneLine(i.lines[k]);
      hide StatementOk, Ends, CutAll, IsPreserved, Text, Skips, OneLine;
      var e := NextCut(c, i.lines);
      StretchIsKeptIff(i.lines, e);
      t := Text(i.lines[..e + 1]);
      if Solid(i) {
        WholeStretch(i.lines, e);
        NothingCut(CutAll(c, i.lines[..e + 1]));
      } else {
        CutGrows(CutAll(c, i.lines[..e + 1]), i.lines[e + 1..]);
      }
    } else {
      hide Skips, StartsInsert, Ends;
      CutOne(c, i.line);
    }
  }

  lemma NothingCut(c: Cutter)
    ensures CutAll(c, []) == c
  {
  }

  lemma WholeStretch(lines: seq<string>, e: nat)
    requires StatementOk(lines, []) && e < |lines| && Ends(lines[e]) && Solid(Statement(lines))
    ensures e == |lines| - 1 && lines[e + 1..] == []
  {
    hide Skips, Ends, StartsInsert, IsQualified, IsPreserved;
  }

  lemma {:induction false} ItemsCut(c: Cutter, items: seq<Item>)
    requires Plain(items) && ItemsOk(items, []) && !c.inInsert
    ensures CutAll(c, AllLines(items)).cut == c.cut + Wanted(items, []) <==> AllSolid(items)
    decreases |items|
  {
    if items != [] {
      var first, rest := items[0], items[1..];
      assert forall k :: 0 <= k < |LinesOf(first)| ==> OneLine(LinesOf(first)[k]);
      assert Plain(rest) by { PlainRest(items); }
      assert ItemOk(first, []) && ItemsOk(rest, []) by { FirstIsOk(items, []); }
      AllSolidParts(items);
      hide Plain, ItemsOk, ItemOk, Solid, AllSolid, CutAll, LinesOf, Head, Body, OneLine;
      var c1 := CutAll(c, LinesOf(first));
      CutParts(c, LinesOf(first), AllLines(rest));
      WantedParts(items, [], c.cut);
      var t := ItemCut(c, first);
      if Solid(first) {
        ItemsCut(c1, rest);
      } else {
        CutGrows(c1, AllLines(rest));
        CutDiffers(c.cut, t, Body(first), CutAll(c1, AllLines(rest)).cut, Wanted(rest, []));
      }
    } else {
      assert c.cut + [] == c.cut;
    }
  }

  lemma CutDiffers(cut: seq<string>, t: string, body: string, all: seq<string>, rest: seq<string>)
    requires t != body && cut + [t] <= all
    ensures all != (cut + [body]) + rest
  {
    assert all[|cut|] == (cut + [t])[|cut|] == t;
    assert ((cut + [body]) + rest)[|cut|] == body;
  }

  lemma AllSolidParts(items: seq<Item>)
    requires items != []
    ensures AllSolid(items) <==> Solid(items[0]) && AllSolid(items[1..])
  {
    hide Solid;
    assert items == [items[0]] + items[1..];
    if Solid(items[0]) && AllSolid(items[1..]) {
      forall i | 0 <= i < |items| ensures Solid(items[i]) {
        assert i > 0 ==> items[i] == items[1..][i - 1];
      }
    }
  }

  lemma PlainRest(items: seq<Item>)
    requires items != [] && Plain(items)
    ensures Plain(items[1..])
  {
    hide OneLine, LinesOf;
  }

  /** The inspector cuts a printed dump into the statements a replay of all tables executes if and only if no
      statement holds a blank line or a comment. */
  lemma InspectorCutsIff(items: seq<Item>)
    requires Plain(items) && ItemsOk(items, [])
    ensures Cut(Print(items)) == Wanted(items, []) <==> AllSolid(items)
  {
    hide ItemOk, ItemsOk, Solid, AllSolid, CutLine, Runs, Body, Plain;
    ItemsCut(FRESH, items);
    assert FRESH.cut + Wanted(items, []) == Wanted(items, []);
    var lines := AllLines(items);
    if lines == [] {
      BlankCutsNothing(FRESH);
      CutOne(FRESH, "");
    } else {
      PrintedLines(items);
      SplitText(lines);
    }
  }

  lemma FewerPreserved(items: seq<Item>, preserved: seq<string>)
    requires ItemsOk(items, preserved)
    ensures ItemsOk(items, [])
  {
    hide Skips, StartsInsert, Ends, IsQualified, Target;
    forall i | 0 <= i < |items| ensures ItemOk(items[i], []) {
      assert ItemOk(items[i], preserved);
    }
  }

  /** The statements of the tables that are not preserved, word for word. */
  function Texts(items: seq<Item>, preserved: seq<string>): seq<string> {
    if items == [] then []
    else (if Runs(items[0], preserved) then [Text(LinesOf(items[0]))] else []) + Texts(items[1..], preserved)
  }

  lemma {:induction false} SolidTexts(items: seq<Item>, preserved: seq<string>)
    requires AllSolid(items)
    ensures Wanted(items, preserved) == Texts(items, preserved)
    decreases |items|
  {
    if items != [] {
      hide Skips, Text, Target;
      SolidTexts(items[1..], preserved);
      assert Solid(items[0]);
      KeptShrinks(LinesOf(items[0]));
    }
  }

  lemma BlankCutsNothing(c: Cutter)
    requires !c.inInsert
    ensures CutLine(c, "") == c
  {
  }

  /** The inspector then sees every statement of the dump word for word and in order, preserved tables included;
      of the other tables it sees what the replay executes. */
  lemma InspectorCutsAlike(items: seq<Item>, preserved: seq<string>, rejects: set<string>)
    requires Plain(items) && ItemsOk(items, preserved) && AllSolid(items)
    requires NoneRejected(Wanted(items, preserved), rejects)
    ensures Cut(Print(items)) == Texts(items, [])
    ensures Replay(Print(items), preserved, rejects).executed == Texts(items, preserved)
  {
    hide ItemOk, ItemsOk, Solid, Cut, Print, Replay, NoneRejected, Wanted, Texts, Plain;
    ReplayUndoesPrint(items, preserved, rejects);
    SolidTexts(items, preserved);
    FewerPreserved(items, preserved);
    SolidTexts(items, []);
    InspectorCutsIff(items);
  }

  // ---- Quotes ----

  /** How many backslashes stand directly before position i. */
  function Backslashes(s: string, i: nat): nat
    requires i <= |s|
  {
    if i > 0 && s[i - 1] == '\\' then 1 + Backslashes(s, i - 1) else 0
  }

  /** A scan from the left: a backslash takes the next character with it; every other quote opens or closes. */
  datatype Quote = Quote(inside: bool, escaped: bool, count: nat)

  function Scanned(s: string, i: nat): Quote
    requires i <= |s|
  {
    if i == 0 then Quote(false, false, 0)
    else
      var q := Scanned(s, i - 1);
      if q.escaped then q.(escaped := false)
      else if s[i - 1] == '\\' then q.(escaped := true)
      else if s[i - 1] == '\'' then Quote(!q.inside, false, q.count + 1)
      else q
  }

  predicate EndsInsideQuote(s: string) { Scanned(s, |s|).inside }

  /** Counting the backslashes behind a quote and scanning forward agree on every quote. */
  lemma {:induction false} BackwardIsForward(s: string, i: nat)
    requires i <= |s|
    ensures Scanned(s, i).escaped <==> Backslashes(s, i) % 2 == 1
    ensures Scanned(s, i).inside <==> Scanned(s, i).count % 2 == 1
  {
    if i > 0 {
      BackwardIsForward(s, i - 1);
    }
  }

  method CountUnescapedQuotes(s: string) returns (n: nat)
    ensures n == Scanned(s, |s|).count
    ensures n % 2 != 0 <==> EndsInsideQuote(s)
  {
    n := 0;
    var i := 0;
    while i < |s|
      invariant 0 <= i <= |s| && n == Scanned(s, i).count
    {
      BackwardIsForward(s, i);
      if s[i] == '\'' {
        var backslashes, j := 0, i - 1;
        while j >= 0 && s[j] == '\\'
          invariant -1 <= j < i && backslashes + Backslashes(s, j + 1) == Backslashes(s, i)
        {
          backslashes := backslashes + 1;
          j := j - 1;
        }
        if backslashes % 2 == 0 {
          n := n + 1;
        }
      }
      i := i + 1;
    }
    BackwardIsForward(s, |s|);
  }

  // ---- Quotes line by line ----

  /** A line break is nothing to a scan: it neither opens a quote nor leaves an escape behind. */
  lemma {:induction false} ScanOn(s: string, line: string, k: nat)
    requires k <= |line|
    ensures var w := s + "\n" + line; var q := Scanned(w, |s| + 1 + k);
      q.escaped == Scanned(line, k).escaped && q.inside == (EndsInsideQuote(s) != Scanned(line, k).inside)
  {
    var w := s + "\n" + line;
    if k == 0 {
      ScanPrefix(w, s, |s|);
      assert w[|s|] == '\n';
    } else {
      ScanOn(s, line, k - 1);
      assert w[|s| + k] == line[k - 1];
    }
  }

  lemma {:induction false} ScanPrefix(w: string, s: string, k: nat)
    requires k <= |s| && s <= w
    ensures Scanned(w, k) == Scanned(s, k)
  {
    if k > 0 {
      ScanPrefix(w, s, k - 1);
    }
  }

  /** An odd number of these lines end inside a quote, each read by itself. */
  predicate OddQuotes(lines: seq<string>) {
    lines != [] && (OddQuotes(lines[..|lines| - 1]) != EndsInsideQuote(lines[|lines| - 1]))
  }

  /** So the lines of a text may be scanned one by one. */
  lemma {:induction false} QuotesByLine(lines: seq<string>)
    ensures EndsInsideQuote(Text(lines)) == OddQuotes(lines)
    decreases |lines|
  {
    if |lines| > 1 {
      var front, last := lines[..|lines| - 1], lines[|lines| - 1];
      QuotesByLine(front);
      assert lines == front + [last];
      TextSnoc(front, last);
      ScanOn(Text(front), last, |last|);
    } else if |lines| == 1 {
      assert lines[..0] == [];
    }
  }

  /** The later lines of a statement that the replay passes over. */
  function Dropped(lines: seq<string>): seq<string> {
    if |lines| <= 1 then []
    else Dropped(lines[..|lines| - 1]) + (if Skips(lines[|lines| - 1]) then [lines[|lines| - 1]] else [])
  }

  lemma OddSnoc(lines: seq<string>, line: string)
    ensures OddQuotes(lines + [line]) == (OddQuotes(lines) != EndsInsideQuote(line))
  {
    hide EndsInsideQuote;
    assert (lines + [line])[..|lines|] == lines;
  }

  lemma {:induction false} KeptAndDropped(lines: seq<string>)
    ensures OddQuotes(lines) == (OddQuotes(Kept(lines)) != OddQuotes(Dropped(lines)))
    decreases |lines|
  {
    hide Skips, EndsInsideQuote, OddQuotes;
    if |lines| > 1 {
      var front, last := lines[..|lines| - 1], lines[|lines| - 1];
      KeptAndDropped(front);
      assert lines == front + [last] && Kept(front) + [] == Kept(front) && Dropped(front) + [] == Dropped(front);
      OddSnoc(front, last);
      OddSnoc(Kept(front), last);
      OddSnoc(Dropped(front), last);
    } else {
      assert Kept(lines) == lines by { KeptShrinks(lines); }
      assert !OddQuotes(Dropped(lines)) by { NoneOdd(); }
    }
  }

  lemma NoneOdd()
    ensures !OddQuotes([])
  {
  }

  lemma VerdictByLine(lines: seq<string>)
    ensures (EndsInsideQuote(Text(lines)) <==> EndsInsideQuote(Text(Kept(lines)))) <==> !OddQuotes(Dropped(lines))
  {
    hide EndsInsideQuote, OddQuotes, Text, Kept, Dropped;
    QuotesByLine(lines);
    QuotesByLine(Kept(lines));
    KeptAndDropped(lines);
  }

  lemma WholeCut(lines: seq<string>)
    requires lines != [] && StartsInsert(lines[0]) && Ends(lines[|lines| - 1])
    requires forall i :: 0 <= i < |lines| - 1 ==> !Ends(lines[i])
    ensures CutAll(FRESH, lines).cut == [Text(lines)]
  {
    hide StartsInsert, Ends, CutAll, Text;
    assert lines[..|lines|] == lines;
    CutOpen(FRESH, lines, |lines|);
  }

  lemma WholeReplay(lines: seq<string>)
    requires StatementOk(lines, []) && Split(Text(lines)) == lines
    ensures Replay(Text(lines), [], {}).executed == [Text(Kept(lines))]
  {
    assert !IsPreserved(Trim(lines[0]), []);
    hide StatementOk, IsPreserved, Kept, Text, FeedAll, Split, Trim;
    FeedStatement(START, lines, [], {});
  }

  /** A statement whose dropped lines do not end it is seen whole by the inspector, and its verdict is right for
      the statement the replay executes if and only if the dropped lines leave evenly many quotes open. */
  lemma VerdictIsRightIff(lines: seq<string>)
    requires StatementOk(lines, []) && forall i :: 0 <= i < |lines| ==> OneLine(lines[i])
    requires forall i :: 0 <= i < |lines| - 1 ==> !Ends(lines[i])
    ensures Cut(Text(lines)) == [Text(lines)]
    ensures Replay(Text(lines), [], {}).executed == [Text(Kept(lines))]
    ensures (EndsInsideQuote(Text(lines)) <==> EndsInsideQuote(Text(Kept(lines)))) <==> !OddQuotes(Dropped(lines))
  {
    assert lines != [] && StartsInsert(lines[0]) && Ends(lines[|lines| - 1]);
    hide StatementOk, StartsInsert, Ends, Split, Kept, EndsInsideQuote, OddQuotes, OneLine, Text, CutAll, Replay, Dropped;
    SplitText(lines);
    WholeCut(lines);
    WholeReplay(lines);
    VerdictByLine(lines);
  }

  /** A stretch without quotes and backslashes. */
  predicate Unquoted(s: string) { '\'' !in s && '\\' !in s }

  lemma {:induction false} ScanUnquoted(w: string, start: nat, k: nat)
    requires start <= k <= |w| && Unquoted(w[start..k]) && !Scanned(w, start).escaped
    ensures Scanned(w, k).inside == Scanned(w, start).inside && !Scanned(w, k).escaped
  {
    if start < k {
      assert w[start..k] == w[start..k - 1] + [w[k - 1]];
      assert w[k - 1] in w[start..k];
      assert forall c :: c in w[start..k - 1] ==> c in w[start..k];
      ScanUnquoted(w, start, k - 1);
    }
  }

  lemma OneQuote(a: string, b: string)
    requires Unquoted(a) && Unquoted(b)
    ensures EndsInsideQuote(a + "'" + b) && !EndsInsideQuote(a)
  {
    hide Unquoted;
    var w := a + "'" + b;
    assert w[0..|a|] == a && a[0..|a|] == a && w[|a| + 1..|w|] == b;
    ScanUnquoted(a, 0, |a|);
    ScanUnquoted(w, 0, |a|);
    assert w[|a|] == '\'';
    ScanUnquoted(w, |a| + 1, |w|);
  }

  /** It happens both ways: a comment holding an apostrophe makes the inspector flag a statement whose quotes are
      closed in what the replay executes, and pass one whose quotes are not. */
  lemma CommentChangesVerdict()
    ensures var lines := [VALUE_OPENS, "-- it's", VALUE_ENDS];
      && Cut(Text(lines)) == [Text(lines)] && EndsInsideQuote(Text(lines))
      && Replay(Text(lines), [], {}).executed == [Text([VALUE_OPENS, VALUE_ENDS])]
      && !EndsInsideQuote(Text([VALUE_OPENS, VALUE_ENDS]))
    ensures var lines := [VALUE_OPENS, "-- it's", "b);"];
      && Cut(Text(lines)) == [Text(lines)] && !EndsInsideQuote(Text(lines))
      && Replay(Text(lines), [], {}).executed == [Text([VALUE_OPENS, "b);"])]
      && EndsInsideQuote(Text([VALUE_OPENS, "b);"]))
  {
    CommentLine();
    EndingQuotes();
    hide *;
    CommentInside(VALUE_ENDS);
    CommentInside("b);");
  }

  lemma CommentLine()
    ensures OneLine("-- it's") && Skips("-- it's") && !Ends("-- it's")
    ensures EndsInsideQuote("-- it's") && EndsInsideQuote(VALUE_OPENS)
  {
    var line := "-- it's";
    assert line == "-- it" + "'" + "s" && VALUE_OPENS == "INSERT INTO `t` VALUES (" + "'" + "a";
    OneQuote("-- it", "s");
    OneQuote("INSERT INTO `t` VALUES (", "a");
    Trimmed(line);
    hide EndsInsideQuote, Trim, TrimRight;
    assert line[..2] == "--" && line[|line| - 1] == 's';
  }

  lemma EndingQuotes()
    ensures EndsInsideQuote(VALUE_ENDS) && OneLine(VALUE_ENDS) && !Skips(VALUE_ENDS) && Ends(VALUE_ENDS)
    ensures !EndsInsideQuote("b);") && OneLine("b);") && !Skips("b);") && Ends("b);")
  {
    assert VALUE_ENDS == "b" + "'" + ");";
    OneQuote("b", ");");
    OneQuote("b);", "");
    EndingLine();
    Trimmed("b);");
    hide EndsInsideQuote, Trim, TrimRight;
    assert "b);"[2..] == ";";
  }

  /** The comment between an opening line that leaves its quote open and any ending line. */
  lemma CommentInside(last: string)
    requires OneLine("-- it's") && Skips("-- it's") && !Ends("-- it's")
    requires EndsInsideQuote("-- it's") && EndsInsideQuote(VALUE_OPENS)
    requires OneLine(last) && !Skips(last) && Ends(last)
    ensures var lines := [VALUE_OPENS, "-- it's", last];
      && Cut(Text(lines)) == [Text(lines)] && EndsInsideQuote(Text(lines)) == EndsInsideQuote(last)
      && Replay(Text(lines), [], {}).executed == [Text([VALUE_OPENS, last])]
      && EndsInsideQuote(Text([VALUE_OPENS, last])) == !EndsInsideQuote(last)
  {
    var lines := [VALUE_OPENS, "-- it's", last];
    OpeningLine();
    hide Skips, StartsInsert, Ends, IsQualified, IsPreserved, Trim, EndsInsideQuote, OneLine, Replay, Cut, Text;
    assert StatementOk(lines, []);
    VerdictIsRightIff(lines);
    assert lines == [VALUE_OPENS, "-- it's"] + [last] && [VALUE_OPENS, "-- it's"] == [VALUE_OPENS] + ["-- it's"];
    assert [VALUE_OPENS, last] == [VALUE_OPENS] + [last] && [VALUE_OPENS] == [] + [VALUE_OPENS];
    OddSnoc([VALUE_OPENS, "-- it's"], last);
    OddSnoc([VALUE_OPENS], "-- it's");
    OddSnoc([], VALUE_OPENS);
    OddSnoc([VALUE_OPENS], last);
    QuotesByLine(lines);
    QuotesByLine([VALUE_OPENS, last]);
    KeptMiddle(VALUE_OPENS, "-- it's", last);
  }

  lemma KeptMiddle(first: string, middle: string, last: string)
    requires Skips(middle) && !Skips(last)
    ensures Kept([first, middle, last]) == [first, last]
  {
    hide Skips;
    var lines := [first, middle, last];
    assert lines[..2] == [first, middle] && lines[..2][..1] == [first] && [first][..0] == [];
    assert Kept([first]) == [] + [first];
    assert Kept(lines[..2]) == [first];
  }

  // ---- Broken statements ----

  function Broken(stmts: seq<string>): nat {
    if stmts == [] then 0 else Broken(stmts[..|stmts| - 1]) + if EndsInsideQuote(stmts[|stmts| - 1]) then 1 else 0
  }

  /** How many complete statements end inside a quote; the last, unfinished one is not counted. */
  method CountUnclosedInserts(head: string) returns (broken: nat)
    ensures broken == Broken(Cut(head))
  {
    hide Skips, StartsInsert, Ends, Split, EndsInsideQuote;
    var lines := Split(head);
    var buf, inInsert := "", false;
    ghost var cut: seq<string> := [];
    broken := 0;
    var i := 0;
    while i < |lines|
      invariant 0 <= i <= |lines|
      invariant CutAll(FRESH, lines) == CutAll(Cutter(inInsert, buf, cut), lines[i..])
      invariant broken == Broken(cut)
    {
      var line := lines[i];
      ghost var before := Cutter(inInsert, buf, cut);
      i := i + 1;
      if !inInsert {
        if Skips(line) || !StartsInsert(line) {
          assert CutLine(before, line) == before;
          continue;
        }
        buf := line;
      } else {
        buf := buf + "\n" + line;
      }
      if !Ends(line) {
        inInsert := true;
        assert CutLine(before, line) == Cutter(inInsert, buf, cut);
        continue;
      }
      var quotes := CountUnescapedQuotes(buf);
      cut := cut + [buf];
      assert cut[..|cut| - 1] == before.cut;
      if quotes % 2 != 0 {
        broken := broken + 1;
      }
      inInsert := false;
      assert CutLine(before, line) == Cutter(inInsert, buf, cut);
    }
  }
}

/** The table a statement writes to, as the database server reads the whole text: names, blanks and comments may
    stand on any line. The replay looks at the first line only. */
module Targets {
  import opened Lines
  import opened Dump

  /** A table of the current schema, or of a named one. */
  datatype Name = Local(table: string) | Foreign(schema: string, table: string)

  // ---- The server's reading ----

  /** What follows the first occurrence of `mark`, nothing when there is none. */
  function After(s: string, mark: string): (r: string)
    ensures |r| <= |s|
    decreases |s|
  {
    if s == "" then "" else if HasPrefix(s, mark) then s[|mark|..] else After(s[1..], mark)
  }

  function SkipDigits(s: string): (r: string)
    ensures |r| <= |s|
    decreases |s|
  {
    if s != "" && '0' <= s[0] <= '9' then SkipDigits(s[1..]) else s
  }

  predicate StartsLineComment(s: string) {
    HasPrefix(s, "#") || (HasPrefix(s, "--") && (|s| == 2 || IsBlank(s[2])))
  }

  /** Past blanks and comments; what a version comment holds is read, only its marks are passed over. */
  function SkipBlank(s: string): (r: string)
    ensures |r| <= |s|
    decreases |s|
  {
    if s == "" then s
    else if IsBlank(s[0]) then SkipBlank(s[1..])
    else if HasPrefix(s, "/*!") then SkipBlank(SkipDigits(s[3..]))
    else if HasPrefix(s, "*/") then SkipBlank(s[2..])
    else if HasPrefix(s, "/*") then SkipBlank(After(s[2..], "*/"))
    else if StartsLineComment(s) then SkipBlank(After(s[1..], "\n"))
    else s
  }

  predicate NameChar(c: char) {
    'a' <= c <= 'z' || 'A' <= c <= 'Z' || '0' <= c <= '9' || c == '_' || c == '$' || '\U{80}' <= c
  }

  /** A quoted name after its opening quote, a doubled quote standing for one; with what follows it. */
  function QuotedName(s: string, quote: char): (r: Option<(string, string)>)
    ensures r.Some? ==> |r.value.1| < |s|
    decreases |s|
  {
    if s == "" then None
    else if s[0] == quote then
      if |s| > 1 && s[1] == quote then
        var rest := QuotedName(s[2..], quote);
        if rest.None? then None else Some(([quote] + rest.value.0, rest.value.1))
      else Some(("", s[1..]))
    else
      var rest := QuotedName(s[1..], quote);
      if rest.None? then None else Some(([s[0]] + rest.value.0, rest.value.1))
  }

  function BareName(s: string): (r: (string, string))
    ensures s == r.0 + r.1
    decreases |s|
  {
    if s != "" && NameChar(s[0]) then
      var rest := BareName(s[1..]);
      ([s[0]] + rest.0, rest.1)
    else ("", s)
  }

  /** One name at the start of the text, and what follows it. */
  function NameAt(s: string): Option<(string, string)> {
    if Quoted(s) then QuotedName(s[1..], s[0])
    else
      var r := BareName(s);
      if r.0 == "" then None else Some(r)
  }

  /** The target read from the text after the keyword. */
  function TargetAt(s: string): Option<Name> {
    var first := NameAt(s);
    if first.None? then None
    else
      var next := SkipBlank(first.value.1);
      if !HasPrefix(next, ".") then Some(Local(first.value.0))
      else
        var second := NameAt(SkipBlank(next[1..]));
        if second.None? then None else Some(Foreign(first.value.0, second.value.0))
  }

  /** The target of an INSERT, None when the text is none: the server refuses such a text. */
  function ServerTarget(text: string): Option<Name> {
    var s := SkipBlank(text);
    if !HasPrefix(Upper(s), INSERT_INTO) then None
    else
      var rest := s[|INSERT_INTO|..];
      if rest != "" && NameChar(rest[0]) then None else TargetAt(SkipBlank(rest))
  }

  /** A statement the replay must never execute. */
  predicate Forbidden(text: string, preserved: seq<string>) {
    var t := ServerTarget(text);
    t.Some? && (t.value.Foreign? || t.value.table in preserved)
  }

  // ---- A first line that names its table ----

  /** What may follow a table name on its line: something that neither continues the name nor starts a comment. */
  predicate PlainTail(tail: string) {
    var t := Trim(tail);
    t != "" && t[0] != '.' && t[0] != '`' && t[0] != '"' && t[0] != '/' && t[0] != '*' && t[0] != '#' && t[0] != '-'
  }

  /** The line is an opening that the server reads too: a plain tail, and a bare name of name characters after a gap. */
  predicate Names(line: string, o: Opening) {
    && OpeningOk(o) && line == LineOf(o) && PlainTail(o.tail)
    && (o.form.Bare? ==> o.gap != "" && forall i :: 0 <= i < |o.name| ==> NameChar(o.name[i]))
  }

  /** The line names its table, in one of the three forms. */
  ghost predicate NamesTable(line: string) { exists o :: Names(line, o) }

  lemma {:induction false} QuotedNamePlain(quote: char, name: string, rest: string)
    requires quote !in name && (rest == "" || rest[0] != quote)
    ensures QuotedName(name + [quote] + rest, quote) == Some((name, rest))
    decreases |name|
  {
    var s := name + [quote] + rest;
    if name == "" {
      assert s[1..] == rest;
    } else {
      QuotedNamePlain(quote, name[1..], rest);
      assert s[1..] == name[1..] + [quote] + rest;
      assert [name[0]] + name[1..] == name;
    }
  }

  /** A name between quotes, its own quotes doubled. */
  function Doubled(name: string, quote: char): string {
    if name == "" then "" else (if name[0] == quote then [quote, quote] else [name[0]]) + Doubled(name[1..], quote)
  }

  /** Every name is read back so. */
  lemma {:induction false} DoubledReadBack(name: string, quote: char, rest: string)
    requires rest == "" || rest[0] != quote
    ensures QuotedName(Doubled(name, quote) + [quote] + rest, quote) == Some((name, rest))
    decreases |name|
  {
    var s := Doubled(name, quote) + [quote] + rest;
    if name == "" {
      assert s[1..] == rest;
    } else {
      DoubledReadBack(name[1..], quote, rest);
      var more := Doubled(name[1..], quote) + [quote] + rest;
      assert [name[0]] + name[1..] == name;
      if name[0] == quote {
        assert s[2..] == more;
      } else {
        assert s[1..] == more;
      }
    }
  }

  /** The first end mark of a text that holds none before it. */
  lemma {:induction false} AfterMark(body: string, mark: string, s: string)
    requires |mark| > 0 && forall k :: 0 <= k < |body| ==> !HasPrefix(body[k..] + mark + s, mark)
    ensures After(body + mark + s, mark) == s
    decreases |body|
  {
    var all := body + mark + s;
    if body == "" {
      assert all == mark + s && all[|mark|..] == s;
    } else {
      assert body[0..] == body && all[1..] == body[1..] + mark + s;
      assert forall k :: 0 <= k < |body[1..]| ==> body[1..][k..] == body[k + 1..];
      AfterMark(body[1..], mark, s);
    }
  }

  /** No end mark inside. */
  predicate CommentBody(body: string) { forall k :: 0 <= k < |body| - 1 ==> !(body[k] == '*' && body[k + 1] == '/') }

  /** A comment reads as nothing, whatever it holds, unless it is a version comment. */
  lemma CommentPassed(body: string, s: string)
    requires CommentBody(body) && !HasPrefix(body, "!")
    ensures SkipBlank("/*" + body + "*/" + s) == SkipBlank(s)
  {
    var all := "/*" + body + "*/" + s;
    forall k | 0 <= k < |body| ensures !HasPrefix(body[k..] + "*/" + s, "*/") {
      var t := body[k..] + "*/" + s;
      assert t[0] == body[k] && t[1] == if k + 1 < |body| then body[k + 1] else '*';
    }
    AfterMark(body, "*/", s);
    assert all[2..] == body + "*/" + s;
    assert all[0] == '/' && all[1] == '*' && all[2] == if body == "" then '*' else body[0];
    hide After;
  }

  /** So does the rest of a line after its mark. */
  lemma LineCommentPassed(mark: string, text: string, s: string)
    requires (mark == "#" || mark == "-- ") && OneLine(text)
    ensures SkipBlank(mark + text + "\n" + s) == SkipBlank(s)
  {
    var all, body := mark + text + "\n" + s, mark[1..] + text;
    forall k | 0 <= k < |body| ensures !HasPrefix(body[k..] + "\n" + s, "\n") {
      var t := body[k..] + "\n" + s;
      assert t[0] == body[k] && body[k] != '\n';
    }
    AfterMark(body, "\n", s);
    assert all[1..] == body + "\n" + s && all[0] == mark[0];
    if mark == "-- " {
      assert all[1] == '-' && all[2] == ' ';
    }
    hide After;
  }

  /** What a version comment holds is read as if it stood there. */
  lemma VersionRead(digits: string, s: string)
    requires (forall i :: 0 <= i < |digits| ==> '0' <= digits[i] <= '9') && (s == "" || !('0' <= s[0] <= '9'))
    ensures SkipBlank("/*!" + digits + s) == SkipBlank(s) && SkipBlank("*/" + s) == SkipBlank(s)
  {
    DigitsSkipped(digits, s);
    VersionMark(digits + s);
    EndMark(s);
    hide SkipBlank, SkipDigits;
    assert "/*!" + digits + s == "/*!" + (digits + s);
  }

  lemma VersionMark(s: string)
    ensures SkipBlank("/*!" + s) == SkipBlank(SkipDigits(s))
  {
    assert ("/*!" + s)[3..] == s && ("/*!" + s)[0] == '/' && HasPrefix("/*!" + s, "/*!");
    hide SkipDigits, After;
  }

  lemma EndMark(s: string)
    ensures SkipBlank("*/" + s) == SkipBlank(s)
  {
    assert ("*/" + s)[2..] == s && ("*/" + s)[0] == '*' && HasPrefix("*/" + s, "*/");
    hide SkipDigits, After;
  }

  lemma {:induction false} DigitsSkipped(digits: string, s: string)
    requires (forall i :: 0 <= i < |digits| ==> '0' <= digits[i] <= '9') && (s == "" || !('0' <= s[0] <= '9'))
    ensures SkipDigits(digits + s) == s
    decreases |digits|
  {
    if digits == "" {
      assert digits + s == s;
    } else {
      assert (digits + s)[1..] == digits[1..] + s;
      DigitsSkipped(digits[1..], s);
    }
  }

  lemma {:induction false} BareNameRead(name: string, rest: string)
    requires (forall i :: 0 <= i < |name| ==> NameChar(name[i])) && rest != "" && !NameChar(rest[0])
    ensures BareName(name + rest) == (name, rest)
    decreases |name|
  {
    hide NameChar;
    if name == "" {
      assert name + rest == rest;
    } else {
      BareNameRead(name[1..], rest);
      assert (name + rest)[1..] == name[1..] + rest && [name[0]] + name[1..] == name;
    }
  }

  /** Nothing after a plain tail reads as a period. */
  lemma {:induction false} NoPeriodAfter(tail: string, rest: string)
    requires PlainTail(tail)
    ensures !HasPrefix(SkipBlank(tail + rest), ".")
    decreases |tail|
  {
    var s := tail + rest;
    assert tail != "" && s[0] == tail[0];
    if IsBlank(tail[0]) {
      assert s[1..] == tail[1..] + rest;
      assert Trim(tail) == Trim(tail[1..]);
      NoPeriodAfter(tail[1..], rest);
    } else {
      FirstNotBlank(tail);
      assert SkipBlank(s) == s;
    }
  }

  lemma FirstNotBlank(tail: string)
    requires PlainTail(tail) && !IsBlank(tail[0])
    ensures tail[0] != '.' && tail[0] != '/' && tail[0] != '*' && tail[0] != '#' && tail[0] != '-'
  {
    if !IsSpace(tail[0]) {
      TrimRightHead(tail);
    }
  }

  /** The server reads past the keyword, in any case, unless a character goes on with it. */
  lemma KeywordRead(keyword: string, rest: string)
    requires IsKeyword(keyword)
    ensures ServerTarget(keyword + rest) == if rest != "" && NameChar(rest[0]) then None else TargetAt(SkipBlank(rest))
  {
    var s := keyword + rest;
    KeywordStarts(keyword, rest);
    hide TargetAt, NameChar, SkipBlank, IsKeyword;
    assert s[|INSERT_INTO|..] == rest;
  }

  lemma KeywordStarts(keyword: string, rest: string)
    requires IsKeyword(keyword)
    ensures |keyword| == |INSERT_INTO| && SkipBlank(keyword + rest) == keyword + rest
    ensures HasPrefix(Upper(keyword + rest), INSERT_INTO)
  {
    var s := keyword + rest;
    assert UpperChar(keyword[0]) == Upper(keyword)[0] == 'I';
    StartsVisible(s);
    hide SkipBlank;
    assert s[..|keyword|] == keyword;
    UpperPrefix(s, |keyword|);
  }

  /** Text that starts with neither a blank nor a comment is not passed over. */
  lemma StartsVisible(s: string)
    requires s != "" && !IsBlank(s[0]) && s[0] != '/' && s[0] != '*' && s[0] != '#' && s[0] != '-'
    ensures SkipBlank(s) == s
  {
  }

  lemma {:induction false} GapSkipped(gap: string, s: string)
    requires Gap(gap)
    ensures SkipBlank(gap + s) == SkipBlank(s)
    decreases |gap|
  {
    if gap == "" {
      assert gap + s == s;
    } else {
      assert (gap + s)[1..] == gap[1..] + s;
      GapSkipped(gap[1..], s);
    }
  }

  lemma QuotedParts(quote: char, name: string, rest: string)
    ensures var s := [quote] + name + [quote] + rest; s != "" && s[0] == quote && s[1..] == name + [quote] + rest
  {
  }

  /** One name, and no period after it. */
  lemma TargetOfName(s: string, name: string, rest: string)
    requires NameAt(s) == Some((name, rest)) && !HasPrefix(SkipBlank(rest), ".")
    ensures TargetAt(s) == Some(Local(name))
  {
    hide NameAt, SkipBlank;
  }

  lemma QuotedTarget(quote: char, name: string, rest: string)
    requires quote !in name && (quote == '`' || quote == '"') && (rest == "" || rest[0] != quote) && !HasPrefix(SkipBlank(rest), ".")
    ensures TargetAt([quote] + name + [quote] + rest) == Some(Local(name))
  {
    hide SkipBlank, QuotedName, BareName, TargetAt, HasPrefix;
    QuotedNamePlain(quote, name, rest);
    QuotedParts(quote, name, rest);
    var s := [quote] + name + [quote] + rest;
    assert NameAt(s) == Some((name, rest));
    TargetOfName(s, name, rest);
  }

  lemma BareTarget(name: string, rest: string)
    requires name != "" && forall i :: 0 <= i < |name| ==> NameChar(name[i])
    requires rest != "" && !NameChar(rest[0]) && !HasPrefix(SkipBlank(rest), ".")
    ensures TargetAt(name + rest) == Some(Local(name))
  {
    BareNameRead(name, rest);
    assert (name + rest)[0] == name[0] && !Quoted(name + rest);
    hide SkipBlank, BareName, NameChar;
    assert NameAt(name + rest) == Some((name, rest));
    hide NameAt;
  }

  /** A name as written, with what follows it, is the target. */
  lemma WrittenTarget(o: Opening, rest: string)
    requires Names(LineOf(o), o)
    ensures var s := Written(o.form, o.name) + (o.tail + rest);
      TargetAt(s) == Some(Local(o.name)) && SkipBlank(s) == s
      && (o.gap == "" ==> !NameChar(s[0]))
  {
    NoPeriodAfter(o.tail, rest);
    TailFirst(o.tail);
    var all := o.tail + rest;
    assert all[0] == o.tail[0];
    hide SkipBlank, PlainTail, TargetAt;
    var s := Written(o.form, o.name) + all;
    match o.form {
      case Ticked =>
        QuotedTarget('`', o.name, all);
        assert s == ['`'] + o.name + ['`'] + all;
      case DoubleQuoted =>
        QuotedTarget('"', o.name, all);
        assert s == ['"'] + o.name + ['"'] + all;
      case Bare =>
        BareTarget(o.name, all);
        assert s[0] == o.name[0] && NameChar(s[0]);
    }
    StartsVisible(s);
  }

  /** White space in front of a statement is nothing to the server. */
  lemma LeadRead(lead: string, s: string)
    requires Gap(lead)
    ensures ServerTarget(lead + s) == ServerTarget(s)
  {
    GapSkipped(lead, s);
    hide SkipBlank, TargetAt;
  }

  /** After the keyword comes the gap or a quote, so the keyword is not read as part of a longer word. */
  lemma GapOrQuote(o: Opening, rest: string)
    requires Names(LineOf(o), o)
    ensures var s := Written(o.form, o.name) + (o.tail + rest); o.gap + s != "" && !NameChar((o.gap + s)[0])
  {
    WrittenTarget(o, rest);
    hide SkipBlank, TargetAt, PlainTail, Written;
    if o.gap != "" {
      assert o.gap[0] == ' ' || o.gap[0] == '\t';
    }
  }

  lemma OpeningParts(o: Opening, rest: string)
    ensures LineOf(o) + rest == o.lead + (o.keyword + (o.gap + (Written(o.form, o.name) + (o.tail + rest))))
  {
    hide Written;
  }

  /** A statement whose first line names its table in one of the three forms is written to that table, whatever
      follows. */
  lemma PrintedServerTarget(o: Opening, rest: string)
    requires Names(LineOf(o), o)
    ensures ServerTarget(LineOf(o) + rest) == Some(Local(o.name))
  {
    var s := Written(o.form, o.name) + (o.tail + rest);
    WrittenTarget(o, rest);
    GapOrQuote(o, rest);
    OpeningParts(o, rest);
    assert IsKeyword(o.keyword) && Gap(o.lead) && Gap(o.gap);
    hide *;
    GapSkipped(o.gap, s);
    KeywordRead(o.keyword, o.gap + s);
    LeadRead(o.lead, o.keyword + (o.gap + s));
  }

  lemma TailFirst(tail: string)
    requires PlainTail(tail)
    ensures tail != "" && tail[0] != '`' && tail[0] != '"'
  {
    if tail != "" && (tail[0] == '`' || tail[0] == '"') {
      Visible(tail[0]);
      TrimRightHead(tail);
    }
  }

  // ---- What a replay of any content executes ----

  /** The first line of the text passed the replay's tests. */
  predicate Passed(text: string, preserved: seq<string>) {
    var line := Split(text)[0];
    !IsQualified(Trim(line)) && !IsPreserved(Trim(line), preserved)
  }

  lemma {:induction false} SplitHead(a: string, b: string)
    ensures Split(a)[0] <= a && (|Split(a)[0]| == |a| || a[|Split(a)[0]|] == '\n')
    ensures Split(a + "\n" + b)[0] == Split(a)[0]
    decreases |a|
  {
    var all := a + "\n" + b;
    if a != "" && a[0] != '\n' {
      SplitHead(a[1..], b);
      assert all[1..] == a[1..] + "\n" + b;
    }
  }

  lemma {:induction false} SplitOneLine(s: string)
    ensures forall k :: 0 <= k < |Split(s)| ==> OneLine(Split(s)[k])
    decreases |s|
  {
    if s != "" {
      SplitOneLine(s[1..]);
    }
  }

  ghost predicate AllPassed(s: Scan, preserved: seq<string>) {
    (s.inInsert ==> Passed(s.buf, preserved)) && forall t :: t in s.executed ==> Passed(t, preserved)
  }

  lemma PassedMore(text: string, line: string, preserved: seq<string>)
    ensures Passed(text + "\n" + line, preserved) == Passed(text, preserved)
  {
    hide IsQualified, IsPreserved, Trim, Split;
    SplitHead(text, line);
  }

  lemma PassedLine(line: string, preserved: seq<string>)
    requires OneLine(line)
    ensures Passed(line, preserved) <==> !IsQualified(Trim(line)) && !IsPreserved(Trim(line), preserved)
  {
    hide IsQualified, IsPreserved, Trim, Split;
    SplitFirst(line, "");
  }

  lemma FeedKeepsPassed(s: Scan, line: string, preserved: seq<string>, rejects: set<string>)
    requires AllPassed(s, preserved) && OneLine(line)
    ensures AllPassed(Feed(s, line, preserved, rejects), preserved)
  {
    PassedMore(s.buf, line, preserved);
    PassedLine(line, preserved);
    hide Skips, StartsInsert, Ends, IsQualified, IsPreserved, Trim, Passed, OneLine;
  }

  lemma {:induction false} FeedAllKeepsPassed(s: Scan, lines: seq<string>, preserved: seq<string>, rejects: set<string>)
    requires AllPassed(s, preserved) && forall k :: 0 <= k < |lines| ==> OneLine(lines[k])
    ensures AllPassed(FeedAll(s, lines, preserved, rejects), preserved)
    decreases |lines|
  {
    hide AllPassed, Feed, OneLine;
    if lines != [] {
      FeedKeepsPassed(s, lines[0], preserved, rejects);
      FeedAllKeepsPassed(Feed(s, lines[0], preserved, rejects), lines[1..], preserved, rejects);
    }
  }

  lemma PassedIsAllowed(text: string, preserved: seq<string>)
    requires Passed(text, preserved) && NamesTable(Split(text)[0])
    ensures !Forbidden(text, preserved)
  {
    var line := Split(text)[0];
    var o :| Names(line, o);
    SplitHead(text, "");
    NameReadBack(o);
    PrintedServerTarget(o, text[|line|..]);
    assert text == line + text[|line|..];
    hide Trim, IsQualified, Target, ServerTarget, Split;
  }

  /** Whatever the content, a replay executes no statement on a preserved table or another schema, as long as the
      first line of what it executes names its table. */
  lemma ReplayOfAnyContent(content: string, preserved: seq<string>, rejects: set<string>, t: string)
    requires t in Replay(content, preserved, rejects).executed && NamesTable(Split(t)[0])
    ensures match ServerTarget(t)
      case None => true
      case Some(Local(table)) => table !in preserved
      case Some(Foreign(_, _)) => false
  {
    SplitOneLine(content);
    FeedAllKeepsPassed(START, Split(content), preserved, rejects);
    PassedIsAllowed(t, preserved);
  }

  // ---- Exactly when a replay is safe ----

  /** The statement writes where it must not, and its first line does not say so. */
  predicate Hides(i: Item, preserved: seq<string>) { Runs(i, preserved) && Forbidden(Body(i), preserved) }

  lemma {:induction false} WantedBodies(items: seq<Item>, preserved: seq<string>)
    ensures forall t :: t in Wanted(items, preserved) <==> exists k :: 0 <= k < |items| && Runs(items[k], preserved) && Body(items[k]) == t
    decreases |items|
  {
    hide Runs, Body;
    if items != [] {
      var rest := items[1..];
      WantedBodies(rest, preserved);
      forall t ensures t in Wanted(items, preserved) <==> exists k :: 0 <= k < |items| && Runs(items[k], preserved) && Body(items[k]) == t {
        if t in Wanted(rest, preserved) {
          var k :| 0 <= k < |rest| && Runs(rest[k], preserved) && Body(rest[k]) == t;
          assert rest[k] == items[k + 1];
        }
        if k :| 0 <= k < |items| && Runs(items[k], preserved) && Body(items[k]) == t {
          assert k > 0 ==> rest[k - 1] == items[k];
        }
      }
    }
  }

  /** The replay of a printed dump executes no statement on a preserved table or another schema if and only if
      every statement that would write there is caught by its first line. */
  lemma ReplayIsSafeIff(items: seq<Item>, preserved: seq<string>, rejects: set<string>)
    requires Plain(items) && ItemsOk(items, preserved) && NoneRejected(Wanted(items, preserved), rejects)
    ensures (forall t :: t in Replay(Print(items), preserved, rejects).executed ==> !Forbidden(t, preserved))
       <==> (forall k :: 0 <= k < |items| ==> !Hides(items[k], preserved))
  {
    hide Runs, Body, Forbidden, Replay, ItemsOk, Plain, NoneRejected, Print;
    ReplayUndoesPrint(items, preserved, rejects);
    WantedBodies(items, preserved);
    if k :| 0 <= k < |items| && Hides(items[k], preserved) {
      assert Body(items[k]) in Wanted(items, preserved);
    }
  }

  /** Every statement names its table on its first line. */
  ghost predicate AllNamed(items: seq<Item>) {
    forall k :: 0 <= k < |items| && items[k].Statement? && items[k].lines != [] ==> NamesTable(items[k].lines[0])
  }

  /** The text of a statement starts with its first line. */
  lemma BodyFirst(i: Item)
    requires i.Statement? && i.lines != [] && forall k :: 0 <= k < |LinesOf(i)| ==> OneLine(LinesOf(i)[k])
    ensures Split(Body(i))[0] == i.lines[0] && i.lines[0] <= Body(i)
  {
    KeptShrinks(i.lines);
    var kept := Kept(i.lines);
    forall k | 0 <= k < |kept| ensures OneLine(kept[k]) {
      assert kept[k] in LinesOf(i);
    }
    SplitText(kept);
    SplitHead(Body(i), "");
  }

  /** In these forms the server and the first line agree on every statement. */
  lemma NamedTarget(i: Item, o: Opening)
    requires i.Statement? && i.lines != [] && forall k :: 0 <= k < |LinesOf(i)| ==> OneLine(LinesOf(i)[k])
    requires Names(i.lines[0], o)
    ensures ServerTarget(Body(i)) == Some(Local(o.name)) && Target(Trim(i.lines[0])) == Some(o.name)
  {
    var line, text := i.lines[0], Body(i);
    BodyFirst(i);
    NameReadBack(o);
    PrintedServerTarget(o, text[|line|..]);
    assert text == line + text[|line|..];
    hide Trim, IsQualified, Target, ServerTarget, Split, Body;
  }
}

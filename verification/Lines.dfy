/** Lines of text: splitting and joining, trimming, and the few searches the dump readers use. */
module Lines {

  datatype Option<+T> = None | Some(value: T)

  // ---- Splitting at newlines ----

  predicate OneLine(s: string) { '\n' !in s }

  function Split(s: string): (lines: seq<string>)
    ensures |lines| > 0
    decreases |s|
  {
    if s == "" then [""]
    else if s[0] == '\n' then [""] + Split(s[1..])
    else var rest := Split(s[1..]); [[s[0]] + rest[0]] + rest[1..]
  }

  function Text(lines: seq<string>): string {
    if lines == [] then "" else if |lines| == 1 then lines[0] else lines[0] + "\n" + Text(lines[1..])
  }

  lemma {:induction false} SplitFirst(line: string, rest: string)
    requires OneLine(line)
    ensures Split(line) == [line]
    ensures Split(line + "\n" + rest) == [line] + Split(rest)
    decreases |line|
  {
    var all := line + "\n" + rest;
    if line == "" {
      assert all[1..] == rest;
    } else {
      SplitFirst(line[1..], rest);
      assert all[1..] == line[1..] + "\n" + rest;
      assert [line[0]] + line[1..] == line;
    }
  }

  /** Splitting undoes joining. */
  lemma {:induction false} SplitText(lines: seq<string>)
    requires lines != [] && forall i :: 0 <= i < |lines| ==> OneLine(lines[i])
    ensures Split(Text(lines)) == lines
    decreases |lines|
  {
    if |lines| == 1 {
      SplitFirst(lines[0], "");
      assert lines == [lines[0]];
    } else {
      SplitText(lines[1..]);
      SplitFirst(lines[0], Text(lines[1..]));
      assert lines == [lines[0]] + lines[1..];
    }
  }

  /** Texts of single lines differ when the lines do. */
  lemma TextInjective(a: seq<string>, b: seq<string>)
    requires a != [] && b != [] && Text(a) == Text(b)
    requires (forall i :: 0 <= i < |a| ==> OneLine(a[i])) && (forall i :: 0 <= i < |b| ==> OneLine(b[i]))
    ensures a == b
  {
    SplitText(a);
    SplitText(b);
  }

  /** Appending one more line to a text. */
  lemma {:induction false} TextSnoc(lines: seq<string>, line: string)
    requires lines != []
    ensures Text(lines + [line]) == Text(lines) + "\n" + line
    decreases |lines|
  {
    if |lines| == 1 {
      assert (lines + [line])[1..] == [line];
    } else {
      assert (lines + [line])[1..] == lines[1..] + [line];
      TextSnoc(lines[1..], line);
      assert Text(lines + [line]) == lines[0] + "\n" + (Text(lines[1..]) + "\n" + line);
    }
  }

  // ---- Trimming and prefixes ----

  /** White space of the ASCII range. */
  predicate IsBlank(c: char) { c == ' ' || c == '\t' || c == '\n' || c == '\r' || c == '\U{0B}' || c == '\U{0C}' }

  /** White space of Unicode. */
  predicate IsSpace(c: char) {
    || IsBlank(c) || c == '\U{85}' || c == '\U{A0}' || c == '\U{1680}' || '\U{2000}' <= c <= '\U{200A}'
    || c == '\U{2028}' || c == '\U{2029}' || c == '\U{202F}' || c == '\U{205F}' || c == '\U{3000}'
  }

  /** A printing character of the ASCII range is no white space. */
  lemma Visible(c: char)
    requires '!' <= c <= '~'
    ensures !IsBlank(c) && !IsSpace(c)
  {
  }

  /** A text that begins and ends with such characters is trimmed already. */
  lemma Trimmed(s: string)
    requires s != "" && '!' <= s[0] <= '~' && '!' <= s[|s| - 1] <= '~'
    ensures Trim(s) == s && TrimLeft(s) == s && TrimRight(s) == s
  {
    hide IsSpace;
    Visible(s[0]);
    Visible(s[|s| - 1]);
  }

  function TrimLeft(s: string): string
    decreases |s|
  {
    if s != "" && IsSpace(s[0]) then TrimLeft(s[1..]) else s
  }

  function TrimRight(s: string): string
    decreases |s|
  {
    if s != "" && IsSpace(s[|s| - 1]) then TrimRight(s[..|s| - 1]) else s
  }

  function Trim(s: string): string { TrimRight(TrimLeft(s)) }

  predicate HasPrefix(s: string, p: string) { p <= s }

  predicate HasSuffix(s: string, p: string) { |p| <= |s| && s[|s| - |p|..] == p }

  function UpperChar(c: char): char { if 'a' <= c <= 'z' then (c as int - 32) as char else c }

  function Upper(s: string): (u: string)
    ensures |u| == |s|
  {
    seq(|s|, i requires 0 <= i < |s| => UpperChar(s[i]))
  }

  /** The first position of one of the characters. */
  function IndexAny(s: string, chars: set<char>): (i: Option<nat>)
    ensures i.Some? ==> i.value < |s| && s[i.value] in chars && forall k :: 0 <= k < i.value ==> s[k] !in chars
    ensures i.None? ==> forall k :: 0 <= k < |s| ==> s[k] !in chars
    decreases |s|
  {
    if s == "" then None
    else if s[0] in chars then Some(0)
    else
      var rest := IndexAny(s[1..], chars);
      if rest.Some? then Some(rest.value + 1) else None
  }

  lemma {:induction false} TrimRightAfter(s: string, t: string)
    requires s != "" && !IsSpace(s[|s| - 1])
    ensures TrimRight(s + t) == s + TrimRight(t)
    decreases |t|
  {
    if t == "" {
      assert s + t == s;
    } else if IsSpace(t[|t| - 1]) {
      assert (s + t)[..|s + t| - 1] == s + t[..|t| - 1];
      TrimRightAfter(s, t[..|t| - 1]);
    }
  }

  lemma {:induction false} TrimRightTwice(s: string)
    ensures TrimRight(TrimRight(s)) == TrimRight(s)
    decreases |s|
  {
    if s != "" && IsSpace(s[|s| - 1]) {
      TrimRightTwice(s[..|s| - 1]);
    }
  }

  /** Trimming the right end first changes nothing. */
  lemma {:induction false} TrimIgnoresRight(s: string)
    ensures Trim(TrimRight(s)) == Trim(s)
    decreases |s|
  {
    if s != "" && IsSpace(s[0]) {
      TrimIgnoresRight(s[1..]);
      TrimRightTail(s);
    } else {
      TrimRightTwice(s);
      TrimRightHead(s);
    }
  }

  /** A first character that is not blank survives trimming the right end. */
  lemma {:induction false} TrimRightHead(s: string)
    requires s != "" ==> !IsSpace(s[0])
    ensures TrimRight(s) == "" ==> s == ""
    ensures TrimRight(s) != "" ==> s != "" && TrimRight(s)[0] == s[0]
    decreases |s|
  {
    if s != "" && IsSpace(s[|s| - 1]) {
      TrimRightHead(s[..|s| - 1]);
    }
  }

  lemma {:induction false} TrimRightTail(s: string)
    requires s != "" && IsSpace(s[0])
    ensures TrimRight(s) == if TrimRight(s[1..]) == "" then "" else [s[0]] + TrimRight(s[1..])
    decreases |s|
  {
    if |s| == 1 {
      assert s[1..] == "" && s[..0] == "";
    } else if IsSpace(s[|s| - 1]) {
      TrimRightTail(s[..|s| - 1]);
      assert s[..|s| - 1][1..] == s[1..][..|s| - 2];
    } else {
      assert s == [s[0]] + s[1..];
    }
  }

  // ---- What trimming takes away ----

  predicate AllSpace(s: string) { forall i :: 0 <= i < |s| ==> IsSpace(s[i]) }

  lemma {:induction false} LeadIgnored(lead: string, s: string)
    requires AllSpace(lead)
    ensures TrimLeft(lead + s) == TrimLeft(s) && Trim(lead + s) == Trim(s)
    decreases |lead|
  {
    hide IsSpace;
    if lead == "" {
      assert lead + s == s;
    } else {
      assert (lead + s)[1..] == lead[1..] + s;
      LeadIgnored(lead[1..], s);
    }
  }

  lemma {:induction false} TrailIgnored(s: string, trail: string)
    requires AllSpace(trail)
    ensures TrimRight(s + trail) == TrimRight(s)
    decreases |trail|
  {
    hide IsSpace;
    if trail == "" {
      assert s + trail == s;
    } else {
      assert (s + trail)[..|s + trail| - 1] == s + trail[..|trail| - 1];
      TrailIgnored(s, trail[..|trail| - 1]);
    }
  }

  lemma {:induction false} LeftPart(s: string) returns (lead: string)
    ensures AllSpace(lead) && s == lead + TrimLeft(s)
    decreases |s|
  {
    hide IsSpace;
    if s != "" && IsSpace(s[0]) {
      lead := LeftPart(s[1..]);
      lead := [s[0]] + lead;
    } else {
      lead := "";
    }
  }

  lemma {:induction false} RightPart(s: string) returns (trail: string)
    ensures AllSpace(trail) && s == TrimRight(s) + trail
    decreases |s|
  {
    hide IsSpace;
    if s != "" && IsSpace(s[|s| - 1]) {
      trail := RightPart(s[..|s| - 1]);
      trail := trail + [s[|s| - 1]];
    } else {
      trail := "";
    }
  }

  /** A text is what trimming leaves, between white space. */
  lemma TrimParts(s: string) returns (lead: string, trail: string)
    ensures AllSpace(lead) && AllSpace(trail) && s == lead + Trim(s) + trail
  {
    hide IsSpace, TrimLeft, TrimRight, AllSpace;
    lead := LeftPart(s);
    trail := RightPart(TrimLeft(s));
  }

  /** Trimming stops at a character that is not white space. */
  lemma BetweenSpaces(lead: string, s: string, trail: string)
    requires AllSpace(lead) && AllSpace(trail) && s != "" && !IsSpace(s[0]) && !IsSpace(s[|s| - 1])
    ensures Trim(lead + s + trail) == s
  {
    hide IsSpace, AllSpace;
    assert lead + s + trail == lead + (s + trail);
    LeadIgnored(lead, s + trail);
    assert (s + trail)[0] == s[0];
    TrailIgnored(s, trail);
  }
}

/** The rotating log: the files kept are always the newest stretch of everything written. */
module LogRotation {

  datatype Option<+T> = None | Some(value: T)

  /** A file is the list of the writes it holds. */
  type File = seq<string>

  function Content(f: File): string { if f == [] then "" else f[0] + Content(f[1..]) }

  function Size(f: File): nat { |Content(f)| }

  function TextOf(f: Option<File>): string { if f.None? then "" else Content(f.value) }

  /** The rolled files, newest first, read oldest first. */
  function RolledText(rolled: seq<Option<File>>): string {
    if rolled == [] then "" else RolledText(rolled[1..]) + TextOf(rolled[0])
  }

  /** `rolled[i]` is the file with suffix i + 1; there are always as many places as files to keep. */
  datatype Logs = Logs(active: File, rolled: seq<Option<File>>)

  function Text(l: Logs): string { RolledText(l.rolled) + Content(l.active) }

  // ---- One write ----

  predicate Overflows(l: Logs, data: string, maxSize: nat) { Size(l.active) > 0 && Size(l.active) + |data| > maxSize }

  /** Every file moves one place on and the oldest goes. */
  function Rotated(l: Logs): Logs
    requires l.rolled != []
  {
    Logs([], [Some(l.active)] + l.rolled[..|l.rolled| - 1])
  }

  function Written(l: Logs, data: string, maxSize: nat): (l1: Logs)
    requires l.rolled != []
    ensures |l1.rolled| == |l.rolled|
  {
    var l0 := if Overflows(l, data, maxSize) then Rotated(l) else l;
    l0.(active := l0.active + [data])
  }

  /** Opening at a start: a log already at the limit is rotated first. */
  function Restarted(l: Logs, maxSize: nat): (l1: Logs)
    requires l.rolled != []
    ensures |l1.rolled| == |l.rolled|
  {
    if Size(l.active) >= maxSize then Rotated(l) else l
  }

  datatype Event = Put(data: string) | Restart

  function Step(l: Logs, e: Event, maxSize: nat): (l1: Logs)
    requires l.rolled != []
    ensures |l1.rolled| == |l.rolled|
  {
    match e
    case Put(data) => Written(l, data, maxSize)
    case Restart => Restarted(l, maxSize)
  }

  function Run(l: Logs, events: seq<Event>, maxSize: nat): (l1: Logs)
    requires l.rolled != []
    ensures |l1.rolled| == |l.rolled|
    decreases |events|
  {
    if events == [] then l else Run(Step(l, events[0], maxSize), events[1..], maxSize)
  }

  function DataOf(e: Event): string { if e.Put? then e.data else "" }

  /** Everything written in a run. */
  function Puts(events: seq<Event>): string { if events == [] then "" else DataOf(events[0]) + Puts(events[1..]) }

  // ---- The newest stretch ----

  predicate IsSuffix(s: string, t: string) { |s| <= |t| && t[|t| - |s|..] == s }

  lemma {:induction false} ContentSnoc(f: File, data: string)
    ensures Content(f + [data]) == Content(f) + data
    decreases |f|
  {
    if f == [] {
      assert [data][1..] == [];
    } else {
      assert (f + [data])[1..] == f[1..] + [data];
      ContentSnoc(f[1..], data);
    }
  }

  lemma {:induction false} OldestFirst(rolled: seq<Option<File>>)
    requires rolled != []
    ensures RolledText(rolled) == TextOf(rolled[|rolled| - 1]) + RolledText(rolled[..|rolled| - 1])
    decreases |rolled|
  {
    hide TextOf;
    var n := |rolled| - 1;
    if n == 0 {
      assert rolled[1..] == [] && rolled[..0] == [];
    } else {
      OldestFirst(rolled[1..]);
      var middle := rolled[1..][..n - 1];
      assert middle == rolled[..n][1..] && rolled[1..][n - 1] == rolled[n];
      assert RolledText(rolled) == (TextOf(rolled[n]) + RolledText(middle)) + TextOf(rolled[0]);
      assert RolledText(rolled[..n]) == RolledText(middle) + TextOf(rolled[0]);
    }
  }

  /** A write appends to what is kept; a rotation before it drops exactly the oldest file. */
  lemma WriteDropsOldest(l: Logs, data: string, maxSize: nat)
    requires l.rolled != []
    ensures Text(l) + data ==
      (if Overflows(l, data, maxSize) then TextOf(l.rolled[|l.rolled| - 1]) else "") + Text(Written(l, data, maxSize))
  {
    var l1 := Written(l, data, maxSize);
    if Overflows(l, data, maxSize) {
      OldestFirst(l.rolled);
      ContentSnoc([], data);
      assert l1.rolled[1..] == l.rolled[..|l.rolled| - 1];
      var oldest, rest := TextOf(l.rolled[|l.rolled| - 1]), RolledText(l.rolled[..|l.rolled| - 1]);
      assert Text(l1) == rest + Content(l.active) + data;
      assert ((oldest + rest) + Content(l.active)) + data == oldest + (rest + Content(l.active) + data);
    } else {
      ContentSnoc(l.active, data);
    }
  }

  /** A rotation at a start drops the oldest file too, and nothing else. */
  lemma RestartDropsOldest(l: Logs, maxSize: nat)
    requires l.rolled != []
    ensures IsSuffix(Text(Restarted(l, maxSize)), Text(l))
  {
    var l1 := Restarted(l, maxSize);
    if l1 != l {
      OldestFirst(l.rolled);
      assert l1.rolled[1..] == l.rolled[..|l.rolled| - 1];
      var oldest, rest := TextOf(l.rolled[|l.rolled| - 1]), RolledText(l.rolled[..|l.rolled| - 1]);
      assert Text(l1) == rest + Content(l.active);
      assert Text(l) == oldest + (rest + Content(l.active));
    }
  }

  lemma SuffixOfMore(s: string, t: string, u: string, more: string)
    requires IsSuffix(s, t + more) && IsSuffix(t, u)
    ensures IsSuffix(s, u + more)
  {
    var cut := |u| - |t|;
    assert (u + more)[cut..] == t + more;
    assert (u + more)[|u + more| - |s|..] == (t + more)[|t + more| - |s|..];
  }

  lemma Regroup(a: string, b: string, c: string)
    ensures (a + b) + c == a + (b + c)
  {
  }

  /** After a start the log has room; one that had room is left as it is. */
  lemma RestartMakesRoom(l: Logs, maxSize: nat)
    requires l.rolled != [] && 0 < maxSize
    ensures Size(Restarted(l, maxSize).active) < maxSize
    ensures Size(l.active) < maxSize ==> Restarted(l, maxSize) == l
  {
    assert Content([]) == "";
    hide Content;
  }

  lemma StepKeepsSuffix(l: Logs, e: Event, maxSize: nat)
    requires l.rolled != []
    ensures IsSuffix(Text(Step(l, e, maxSize)), Text(l) + DataOf(e))
  {
    hide Text;
    match e
    case Put(data) => WriteDropsOldest(l, data, maxSize);
    case Restart =>
      RestartDropsOldest(l, maxSize);
      assert Text(l) + "" == Text(l);
  }

  /** Read from the oldest file to the newest, what is kept is the end of everything ever written, over any
      writes and restarts: nothing is lost in the middle and nothing appears twice. */
  lemma {:induction false} KeptIsNewest(l: Logs, events: seq<Event>, maxSize: nat)
    requires l.rolled != []
    ensures IsSuffix(Text(Run(l, events, maxSize)), Text(l) + Puts(events))
    decreases |events|
  {
    if events == [] {
      assert Text(l) + "" == Text(l);
    } else {
      hide Step, Text, DataOf, IsSuffix;
      var l1, data, rest := Step(l, events[0], maxSize), DataOf(events[0]), Puts(events[1..]);
      StepKeepsSuffix(l, events[0], maxSize);
      KeptIsNewest(l1, events[1..], maxSize);
      SuffixOfMore(Text(Run(l, events, maxSize)), Text(l1), Text(l) + data, rest);
      Regroup(Text(l), data, rest);
    }
  }

  // ---- The size limit ----

  /** Over the limit only by one write that alone is over it. */
  predicate Fits(f: File, maxSize: nat) { Size(f) <= maxSize || (f != [] && Size(f) == |f[|f| - 1]|) }

  predicate AllFit(l: Logs, maxSize: nat) {
    Fits(l.active, maxSize) && forall i :: 0 <= i < |l.rolled| ==> (l.rolled[i].Some? ==> Fits(l.rolled[i].value, maxSize))
  }

  lemma WriteKeepsFit(l: Logs, data: string, maxSize: nat)
    requires l.rolled != [] && AllFit(l, maxSize)
    ensures AllFit(Written(l, data, maxSize), maxSize)
  {
    ContentSnoc(l.active, data);
    ContentSnoc([], data);
    assert (l.active + [data])[|l.active|] == data;
  }

  lemma RestartKeepsFit(l: Logs, maxSize: nat)
    requires l.rolled != [] && AllFit(l, maxSize)
    ensures AllFit(Restarted(l, maxSize), maxSize)
  {
    hide Size;
    assert Fits([], maxSize) by { EmptyFits(maxSize); }
  }

  lemma EmptyFits(maxSize: nat)
    ensures Fits([], maxSize)
  {
  }

  lemma {:induction false} RunKeepsFit(l: Logs, events: seq<Event>, maxSize: nat)
    requires l.rolled != [] && AllFit(l, maxSize)
    ensures AllFit(Run(l, events, maxSize), maxSize)
    decreases |events|
  {
    if events != [] {
      hide AllFit, Written, Restarted;
      match events[0] {
        case Put(data) => WriteKeepsFit(l, data, maxSize);
        case Restart => RestartKeepsFit(l, maxSize);
      }
      RunKeepsFit(Step(l, events[0], maxSize), events[1..], maxSize);
    }
  }

  // ---- Nothing is dropped early ----

  /** The older of two neighbouring files had reached the limit, or was not empty and had no room for the newer one's first
      write. */
  predicate Tight(older: File, newer: File, maxSize: nat) {
    Size(older) >= maxSize || (0 < Size(older) && newer != [] && Size(older) + |newer[0]| > maxSize)
  }

  predicate AllTight(l: Logs, maxSize: nat) {
    && (l.rolled != [] && l.rolled[0].Some? ==> Tight(l.rolled[0].value, l.active, maxSize))
    && (forall i :: 0 < i < |l.rolled| && l.rolled[i].Some? ==>
          l.rolled[i - 1].Some? && Tight(l.rolled[i].value, l.rolled[i - 1].value, maxSize))
  }

  /** A rotation keeps the copies tight; what the log itself becomes tight with comes next. */
  lemma RotatedCopiesTight(l: Logs, maxSize: nat)
    requires l.rolled != [] && AllTight(l, maxSize)
    ensures var r := Rotated(l).rolled;
      forall i :: 0 < i < |r| && r[i].Some? ==> r[i - 1].Some? && Tight(r[i].value, r[i - 1].value, maxSize)
  {
    hide Tight;
    var r := Rotated(l).rolled;
    forall i | 0 < i < |r| && r[i].Some? ensures r[i - 1].Some? && Tight(r[i].value, r[i - 1].value, maxSize) {
      assert r[i] == l.rolled[i - 1];
      if i > 1 {
        assert r[i - 1] == l.rolled[i - 2];
      }
    }
  }

  lemma WriteKeepsTight(l: Logs, data: string, maxSize: nat)
    requires l.rolled != [] && AllTight(l, maxSize)
    ensures AllTight(Written(l, data, maxSize), maxSize)
  {
    var l1 := Written(l, data, maxSize);
    if Overflows(l, data, maxSize) {
      RotatedCopiesTight(l, maxSize);
      assert l1.rolled == Rotated(l).rolled && l1.rolled[0] == Some(l.active) && l1.active == [data];
    } else {
      assert l.active != [] ==> l1.active[0] == l.active[0];
    }
  }

  lemma RestartKeepsTight(l: Logs, maxSize: nat)
    requires l.rolled != [] && AllTight(l, maxSize)
    ensures AllTight(Restarted(l, maxSize), maxSize)
  {
    if Size(l.active) >= maxSize {
      RotatedCopiesTight(l, maxSize);
    }
  }

  /** Over any writes and restarts, a file is rolled only when it has reached the limit or has no room for the next
      write. */
  lemma {:induction false} RotatesOnlyWhenFull(l: Logs, events: seq<Event>, maxSize: nat)
    requires l.rolled != [] && AllTight(l, maxSize)
    ensures AllTight(Run(l, events, maxSize), maxSize)
    decreases |events|
  {
    if events != [] {
      hide AllTight, Written, Restarted;
      match events[0] {
        case Put(data) => WriteKeepsTight(l, data, maxSize);
        case Restart => RestartKeepsTight(l, maxSize);
      }
      RotatesOnlyWhenFull(Step(l, events[0], maxSize), events[1..], maxSize);
    }
  }

  // ---- The writer ----

  class RotatingWriter {
    const maxSize: nat
    const keep: nat
    /** The files on disk: the log itself, absent before the first open, and its rolled copies. */
    var path: Option<File>
    const rolled: array<Option<File>>
    /** The open handle's idea of the size; None while no file is open. */
    var size: Option<nat>

    predicate Valid()
      reads this, rolled
    {
      && keep >= 1 && rolled.Length == keep
      && (size.Some? ==> path.Some? && size.value == Size(path.value))
    }

    function View(): Logs
      reads this, rolled
    {
      Logs(if path.Some? then path.value else [], rolled[..])
    }

    /** Rotate a log that is already too large, then open; limits that are not positive fall back to 5 MiB and 3. */
    constructor (held: Option<File>, copies: seq<Option<File>>, limit: int, count: int)
      requires |copies| == if count <= 0 then 3 else count
      ensures Valid() && size.Some? && fresh(rolled)
      ensures maxSize == (if limit <= 0 then 5 * 1024 * 1024 else limit) && keep == if count <= 0 then 3 else count
      ensures var l := Logs(if held.Some? then held.value else [], copies);
        View() == Restarted(l, maxSize)
    {
      maxSize := if limit <= 0 then 5 * 1024 * 1024 else limit;
      keep := if count <= 0 then 3 else count;
      path, size := held, None;
      rolled := new Option<File>[|copies|](i requires 0 <= i < |copies| => copies[i]);
      new;
      assert rolled[..] == copies;
      RotateN(maxSize);
      Open();
    }

    method Open()
      requires Valid()
      modifies this
      ensures Valid() && size.Some? && View() == old(View())
    {
      if path.None? {
        path := Some([]);
      }
      size := Some(Size(path.value));
    }

    /** Drop the oldest copy, move the others one place on, the log becomes the first copy. */
    method RotateN(atLeast: nat)
      requires Valid() && size.None?
      modifies this`path, rolled
      ensures Valid()
      ensures View() == if old(path).Some? && Size(old(path).value) >= atLeast then Rotated(old(View())) else old(View())
      ensures old(path).Some? && Size(old(path).value) >= atLeast ==> path.None?
    {
      if path.None? || Size(path.value) < atLeast {
        return;
      }
      hide Size;
      ghost var was := rolled[..];
      rolled[keep - 1] := None;
      var i := keep - 1;
      while i >= 1
        invariant 0 <= i <= keep - 1 && path == old(path)
        invariant forall k :: 0 <= k < i ==> rolled[k] == was[k]
        invariant rolled[i].None?
        invariant forall k :: i < k < keep ==> rolled[k] == was[k - 1]
      {
        if rolled[i - 1].Some? {
          rolled[i], rolled[i - 1] := rolled[i - 1], None;
        }
        i := i - 1;
      }
      rolled[0] := path;
      path := None;
      assert rolled[..] == [old(path)] + was[..keep - 1];
    }

    method Write(data: string)
      requires Valid()
      modifies this, rolled
      ensures Valid() && View() == Written(old(View()), data, maxSize)
    {
      if size.None? {
        Open();
      }
      if size.value > 0 && size.value + |data| > maxSize {
        size := None;
        RotateN(0);
        Open();
      }
      ContentSnoc(path.value, data);
      path := Some(path.value + [data]);
      size := Some(size.value + |data|);
    }

    method Close()
      modifies this`size
      ensures size.None?
    {
      size := None;
    }
  }
}

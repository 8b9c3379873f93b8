/** The in-memory session table: one session per user, an absolute and an idle limit, and sweeping that no
    later answer can notice. Times are seconds. */
module Sessions {

  datatype Option<+T> = None | Some(value: T)

  const ABSOLUTE_TTL := 24 * 3600
  const IDLE_TTL := 4 * 3600
  const RECHECK_EVERY := 60

  /** `checkedAt` is the last confirmed database check of the device, None before the first. Device 0 means
      no device was bound at login. */
  datatype Session = Session(user: int, device: int, checkedAt: Option<int>, created: int, lastSeen: int, expires: int)

  datatype Token = Token(value: int)

  type Table = map<Token, Session>

  predicate Expired(s: Session, now: int) { now > s.expires || now > s.lastSeen + IDLE_TTL }

  /** The device is checked against the database again when the last check is a minute old, or there was none. */
  predicate NeedsRecheck(s: Session, now: int) { s.checkedAt.None? || now - s.checkedAt.value >= RECHECK_EVERY }

  function NewSession(user: int, device: int, now: int): Session {
    Session(user, device, None, now, now, now + ABSOLUTE_TTL)
  }

  // ---- Specification of the table operations ----

  /** issueSession: the user's other sessions go, the new one comes. */
  function Issue(t: Table, token: Token, user: int, device: int, now: int): Table {
    (map k | k in t && t[k].user != user :: t[k])[token := NewSession(user, device, now)]
  }

  /** The first half of userFromRequest: an expired session is dropped, a live one is seen. */
  function Touch(t: Table, token: Token, now: int): (Table, bool) {
    if token !in t then (t, false)
    else if Expired(t[token], now) then (t - {token}, false)
    else (t[token := t[token].(lastSeen := now)], true)
  }

  function Sweep(t: Table, now: int): Table { map k | k in t && !Expired(t[k], now) :: t[k] }

  function RevokeDevice(t: Table, device: int): Table { map k | k in t && (device == 0 || t[k].device != device) :: t[k] }

  function RevokeUser(t: Table, user: int): Table { map k | k in t && t[k].user != user :: t[k] }

  /** The database check of a session's device succeeded for a request that began at `at`. */
  function Confirm(t: Table, token: Token, at: int): Table {
    if token in t then t[token := t[token].(checkedAt := Some(at))] else t
  }

  // ---- Runs ----

  datatype Event =
    | EvIssue(token: Token, user: int, device: int)
    | EvTouch(token: Token)
    | EvLogout(token: Token)
    | EvRevokeDevice(device: int)
    | EvRevokeUser(user: int)
    | EvConfirm(token: Token, at: int)

  /** One event at time `now`; the answer is whether a touched token was accepted. */
  function Apply(t: Table, e: Event, now: int): (Table, bool) {
    match e
    case EvIssue(token, user, device) => (Issue(t, token, user, device, now), true)
    case EvTouch(token) => Touch(t, token, now)
    case EvLogout(token) => (t - {token}, token in t)
    case EvRevokeDevice(device) => (RevokeDevice(t, device), true)
    case EvRevokeUser(user) => (RevokeUser(t, user), true)
    case EvConfirm(token, at) => (Confirm(t, token, at), true)
  }

  datatype Timed = Timed(now: int, event: Event, sweepBefore: bool)

  /** Only the answers to requests are observable. */
  function Answer(e: Event, ok: bool): bool { if e.EvTouch? then ok else true }

  /** The answers of a run; with `sweeping`, the janitor sweeps before the events marked so. */
  function Answers(t: Table, events: seq<Timed>, sweeping: bool): seq<bool>
    decreases |events|
  {
    if events == [] then []
    else
      var e := events[0];
      var t0 := if sweeping && e.sweepBefore then Sweep(t, e.now) else t;
      var (t1, ok) := Apply(t0, e.event, e.now);
      [Answer(e.event, ok)] + Answers(t1, events[1..], sweeping)
  }

  predicate ClockMonotone(now: int, events: seq<Timed>)
    decreases |events|
  {
    events == [] || (now <= events[0].now && ClockMonotone(events[0].now, events[1..]))
  }

  // ---- Sweeping is unobservable ----

  /** The swept table lacks only sessions that are expired at `now`, and agrees on the rest. */
  ghost predicate SweptFrom(swept: Table, full: Table, now: int) {
    && (forall k :: k in swept ==> k in full && swept[k] == full[k])
    && (forall k :: k in full && k !in swept ==> Expired(full[k], now))
  }

  lemma ExpiredStays(s: Session, now: int, later: int)
    requires Expired(s, now) && now <= later
    ensures Expired(s, later)
  {
  }

  lemma SweepFirst(swept: Table, full: Table, now: int, e: Timed)
    requires SweptFrom(swept, full, now) && now <= e.now
    ensures SweptFrom(if e.sweepBefore then Sweep(swept, e.now) else swept, full, e.now)
  {
    forall k | k in full && k !in swept ensures Expired(full[k], e.now) {
      ExpiredStays(full[k], now, e.now);
    }
  }

  /** Sweeping takes away exactly the sessions under which no later request could be accepted. */
  lemma SweepDropsUseless(t: Table, now: int, k: Token)
    ensures k in Sweep(t, now) <==> k in t && exists later :: now <= later && Touch(t, k, later).1
    ensures k in Sweep(t, now) ==> Sweep(t, now)[k] == t[k]
  {
    if k in t {
      if Touch(t, k, now).1 {
        assert now <= now;
      } else {
        forall later | now <= later ensures !Touch(t, k, later).1 {
          ExpiredStays(t[k], now, later);
        }
      }
    }
  }

  lemma ApplyBoth(swept: Table, full: Table, event: Event, now: int)
    requires SweptFrom(swept, full, now)
    ensures var (s1, ok) := Apply(swept, event, now); var (f1, ok') := Apply(full, event, now);
      SweptFrom(s1, f1, now) && Answer(event, ok) == Answer(event, ok')
  {
  }

  lemma SweepStep(swept: Table, full: Table, now: int, e: Timed)
    requires SweptFrom(swept, full, now) && now <= e.now
    ensures var s0 := if e.sweepBefore then Sweep(swept, e.now) else swept;
      var (s1, ok) := Apply(s0, e.event, e.now); var (f1, ok') := Apply(full, e.event, e.now);
      SweptFrom(s1, f1, e.now) && Answer(e.event, ok) == Answer(e.event, ok')
  {
    hide *;
    SweepFirst(swept, full, now, e);
    ApplyBoth(if e.sweepBefore then Sweep(swept, e.now) else swept, full, e.event, e.now);
  }

  /** With a clock that never goes back, sweeping at any moments changes no answer of any run. */
  lemma {:induction false} SweepingUnobservable(swept: Table, full: Table, now: int, events: seq<Timed>)
    requires SweptFrom(swept, full, now) && ClockMonotone(now, events)
    ensures Answers(swept, events, true) == Answers(full, events, false)
    decreases |events|
  {
    if events != [] {
      hide SweptFrom, Apply, Sweep;
      var e := events[0];
      SweepStep(swept, full, now, e);
      var s0 := if e.sweepBefore then Sweep(swept, e.now) else swept;
      SweepingUnobservable(Apply(s0, e.event, e.now).0, Apply(full, e.event, e.now).0, e.now, events[1..]);
    }
  }

  // ---- What an accepted token guarantees ----

  ghost predicate OnePerUser(t: Table) {
    forall j, k :: j in t && k in t && j != k ==> t[j].user != t[k].user
  }

  ghost predicate LimitsOk(t: Table) {
    forall k :: k in t ==> t[k].expires == t[k].created + ABSOLUTE_TTL
  }

  /** Every event, and sweeping, keeps one session per user and the absolute limit where it was set. */
  lemma ApplyKeepsTableOk(t: Table, e: Event, now: int)
    requires OnePerUser(t) && LimitsOk(t)
    ensures OnePerUser(Apply(t, e, now).0) && LimitsOk(Apply(t, e, now).0)
    ensures OnePerUser(Sweep(t, now)) && LimitsOk(Sweep(t, now))
  {
  }

  /** An accepted token was issued at most 24 hours ago and last seen at most 4 hours ago. */
  lemma AcceptedIsRecent(t: Table, token: Token, now: int)
    requires LimitsOk(t) && Touch(t, token, now).1
    ensures token in t && now - t[token].created <= ABSOLUTE_TTL && now - t[token].lastSeen <= IDLE_TTL
  {
  }

  // ---- Whole runs ----

  /** What happened, when, and whether it was accepted. */
  datatype Past = Past(now: int, event: Event, ok: bool)

  datatype World = World(table: Table, history: seq<Past>)

  function Advance(w: World, e: Timed): World {
    var t0 := if e.sweepBefore then Sweep(w.table, e.now) else w.table;
    var (t1, ok) := Apply(t0, e.event, e.now);
    World(t1, w.history + [Past(e.now, e.event, ok)])
  }

  function RunAll(w: World, events: seq<Timed>): World
    decreases |events|
  {
    if events == [] then w else RunAll(Advance(w, events[0]), events[1..])
  }

  ghost predicate Issued(h: seq<Past>, token: Token, at: int) {
    exists k :: 0 <= k < |h| && h[k].event.EvIssue? && h[k].event.token == token && h[k].now == at
  }

  predicate Uses(p: Past, token: Token) {
    (p.event.EvIssue? && p.event.token == token) || (p.event.EvTouch? && p.event.token == token && p.ok)
  }

  ghost predicate Used(h: seq<Past>, token: Token, at: int) { exists k :: 0 <= k < |h| && Uses(h[k], token) && h[k].now == at }

  /** Each session tells the truth about when it was issued and last used. */
  ghost predicate Truthful(w: World) {
    forall k :: k in w.table ==> Issued(w.history, k, w.table[k].created) && Used(w.history, k, w.table[k].lastSeen)
  }

  /** The i-th event, if it is an accepted request, follows a login that issued its token at most 24 hours before
      and a use of the token at most 4 hours before. */
  ghost predicate Justified(h: seq<Past>, i: nat)
    requires i < |h|
  {
    h[i].event.EvTouch? && h[i].ok ==>
      && (exists at :: Issued(h[..i], h[i].event.token, at) && h[i].now - at <= ABSOLUTE_TTL)
      && (exists at :: Used(h[..i], h[i].event.token, at) && h[i].now - at <= IDLE_TTL)
  }

  ghost predicate AllJustified(h: seq<Past>) { forall i: nat :: i < |h| ==> Justified(h, i) }

  lemma MoreHistory(h: seq<Past>, p: Past, token: Token, at: int)
    ensures Issued(h, token, at) ==> Issued(h + [p], token, at)
    ensures Used(h, token, at) ==> Used(h + [p], token, at)
    ensures p.event.EvIssue? && p.event.token == token && p.now == at ==> Issued(h + [p], token, at)
    ensures Uses(p, token) && p.now == at ==> Used(h + [p], token, at)
  {
    var h1 := h + [p];
    assert h1[|h|] == p;
    if Issued(h, token, at) {
      var k :| 0 <= k < |h| && h[k].event.EvIssue? && h[k].event.token == token && h[k].now == at;
      assert h1[k] == h[k];
    }
    if Used(h, token, at) {
      var k :| 0 <= k < |h| && Uses(h[k], token) && h[k].now == at;
      assert h1[k] == h[k];
    }
  }

  lemma AdvanceKeepsTruth(w: World, e: Timed)
    requires Truthful(w)
    ensures Truthful(Advance(w, e))
  {
    hide Issued, Used, Expired;
    var w1 := Advance(w, e);
    var p := w1.history[|w.history|];
    forall k | k in w1.table
      ensures Issued(w1.history, k, w1.table[k].created) && Used(w1.history, k, w1.table[k].lastSeen)
    {
      MoreHistory(w.history, p, k, w1.table[k].created);
      MoreHistory(w.history, p, k, w1.table[k].lastSeen);
    }
  }

  lemma AdvanceIsJustified(w: World, e: Timed)
    requires Truthful(w) && LimitsOk(w.table) && AllJustified(w.history)
    ensures AllJustified(Advance(w, e).history)
  {
    hide Issued, Used;
    var h, h1 := w.history, Advance(w, e).history;
    forall i: nat | i < |h1| ensures Justified(h1, i) {
      assert h1[..i] == h[..i];
      if i < |h| {
        assert Justified(h, i);
      } else if e.event.EvTouch? && h1[i].ok {
        var token := e.event.token;
        assert h[..i] == h && token in w.table;
        AcceptedIsRecent(w.table, token, e.now);
        assert Issued(h1[..i], token, w.table[token].created) && Used(h1[..i], token, w.table[token].lastSeen);
      }
    }
  }

  /** In every run from an empty table, with sweeping at any moments and any clock, each user has at most one
      session, and every accepted request follows a login at most 24 hours before that issued its token and a use
      of the token at most 4 hours before. */
  lemma {:induction false} RunsAreJustified(w: World, events: seq<Timed>)
    requires OnePerUser(w.table) && LimitsOk(w.table) && Truthful(w) && AllJustified(w.history)
    ensures var end := RunAll(w, events); OnePerUser(end.table) && AllJustified(end.history)
    decreases |events|
  {
    if events != [] {
      var e := events[0];
      AdvanceKeepsTruth(w, e);
      AdvanceIsJustified(w, e);
      AdvanceKeepsTable(w, e);
      hide OnePerUser, LimitsOk, Truthful, AllJustified, Advance;
      RunsAreJustified(Advance(w, e), events[1..]);
    }
  }

  lemma AdvanceKeepsTable(w: World, e: Timed)
    requires OnePerUser(w.table) && LimitsOk(w.table)
    ensures OnePerUser(Advance(w, e).table) && LimitsOk(Advance(w, e).table)
  {
    ApplyKeepsTableOk(w.table, e.event, e.now);
    ApplyKeepsTableOk(Sweep(w.table, e.now), e.event, e.now);
  }

  /** A server starts without sessions and without a history, where all of that holds. */
  lemma EmptyIsJustified()
    ensures var w := World(map[], []); OnePerUser(w.table) && LimitsOk(w.table) && Truthful(w) && AllJustified(w.history)
  {
  }

  // ---- A token that is gone stays gone ----

  predicate NeverIssues(events: seq<Timed>, token: Token) {
    forall i :: 0 <= i < |events| ==> !(events[i].event.EvIssue? && events[i].event.token == token)
  }

  /** From the i-th event on, no request with the token was accepted. */
  predicate NoneAccepted(h: seq<Past>, from: nat, token: Token) {
    forall i :: from <= i < |h| ==> !(h[i].event.EvTouch? && h[i].event.token == token && h[i].ok)
  }

  lemma GoneStep(w: World, e: Timed, token: Token)
    requires token !in w.table && !(e.event.EvIssue? && e.event.token == token)
    ensures token !in Advance(w, e).table && NoneAccepted(Advance(w, e).history, |w.history|, token)
  {
  }

  lemma {:induction false} GoneStaysGone(w: World, events: seq<Timed>, token: Token)
    requires token !in w.table && NeverIssues(events, token)
    ensures token !in RunAll(w, events).table && NoneAccepted(RunAll(w, events).history, |w.history|, token)
    ensures w.history <= RunAll(w, events).history
    decreases |events|
  {
    if events != [] {
      hide Apply, Sweep;
      var w1 := Advance(w, events[0]);
      GoneStep(w, events[0], token);
      GoneStaysGone(w1, events[1..], token);
    }
  }

  /** After a user logs in, no earlier token of that user is accepted in any later run that does not issue that
      very token again. */
  lemma LoginEndsOldTokensForGood(w: World, login: Timed, earlier: Token, events: seq<Timed>)
    requires login.event.EvIssue? && earlier != login.event.token && NeverIssues(events, earlier)
    requires earlier in w.table ==> w.table[earlier].user == login.event.user
    ensures var w1 := Advance(w, login); NoneAccepted(RunAll(w1, events).history, |w1.history|, earlier)
  {
    var w1 := Advance(w, login);
    assert earlier !in w1.table;
    GoneStaysGone(w1, events, earlier);
  }

  // ---- Exactly when a request is accepted ----

  /** The event ends a session of this token, user and device. */
  predicate Ends(e: Event, token: Token, user: int, device: int) {
    match e
    case EvIssue(t, u, _) => t == token || u == user
    case EvLogout(t) => t == token
    case EvRevokeDevice(d) => d != 0 && d == device
    case EvRevokeUser(u) => u == user
    case _ => false
  }

  /** The j-th event issued the token, and no later one ended it. */
  predicate Current(h: seq<Past>, j: nat, token: Token)
    requires j < |h|
  {
    && h[j].event.EvIssue? && h[j].event.token == token
    && forall m :: j < m < |h| ==> !Ends(h[m].event, token, h[j].event.user, h[j].event.device)
  }

  /** The last use of the token since the j-th event issued it: the issue or the latest accepted request. */
  function LastUse(h: seq<Past>, j: nat, token: Token): int
    requires j < |h|
    decreases |h|
  {
    var p := h[|h| - 1];
    if |h| == j + 1 || Uses(p, token) then p.now else LastUse(h[..|h| - 1], j, token)
  }

  predicate InTime(h: seq<Past>, j: nat, token: Token, now: int)
    requires j < |h|
  {
    now - h[j].now <= 24 * 3600 && now - LastUse(h, j, token) <= 4 * 3600
  }

  /** The token was issued at most 24 hours before, used at most 4 hours before, and not ended in between. */
  ghost predicate MayUse(h: seq<Past>, token: Token, now: int) {
    exists j: nat :: j < |h| && Current(h, j, token) && InTime(h, j, token, now)
  }

  /** The answer to the i-th event, if it is a request, is that. */
  ghost predicate Exact(h: seq<Past>, i: nat)
    requires i < |h|
  {
    h[i].event.EvTouch? ==> (h[i].ok <==> MayUse(h[..i], h[i].event.token, h[i].now))
  }

  ghost predicate AllExact(h: seq<Past>) { forall i: nat :: i < |h| ==> Exact(h, i) }

  ghost predicate Matches(s: Session, h: seq<Past>, j: nat, token: Token)
    requires j < |h|
  {
    && h[j].event.EvIssue? && s.user == h[j].event.user && s.device == h[j].event.device
    && s.created == h[j].now && s.expires == h[j].now + ABSOLUTE_TTL && s.lastSeen == LastUse(h, j, token)
  }

  /** The session of a token is the one its current issue began. */
  ghost predicate HasOrigin(t: Table, h: seq<Past>, k: Token)
    requires k in t
  {
    exists j: nat :: j < |h| && Current(h, j, k) && Matches(t[k], h, j, k)
  }

  /** A token that is current but has no session is out of time. */
  ghost predicate Covered(t: Table, h: seq<Past>, now: int, k: Token) {
    k !in t ==> forall j: nat :: j < |h| && Current(h, j, k) ==> !InTime(h, j, k, now)
  }

  ghost predicate Recorded(t: Table, h: seq<Past>, now: int) {
    (forall k :: k in t ==> HasOrigin(t, h, k)) && (forall k :: Covered(t, h, now, k))
  }

  lemma OneCurrent(h: seq<Past>, i: nat, j: nat, token: Token)
    requires i < |h| && j < |h| && Current(h, i, token) && Current(h, j, token)
    ensures i == j
  {
  }

  lemma CurrentSnoc(h: seq<Past>, p: Past, j: nat, token: Token)
    requires j < |h|
    ensures Current(h + [p], j, token) <==>
      Current(h, j, token) && !Ends(p.event, token, h[j].event.user, h[j].event.device)
  {
    hide Ends;
    var h1 := h + [p];
    assert forall m :: 0 <= m < |h| ==> h1[m] == h[m];
    assert h1[|h|] == p;
  }

  lemma LastUseSnoc(h: seq<Past>, p: Past, j: nat, token: Token)
    requires j < |h|
    ensures LastUse(h + [p], j, token) == if Uses(p, token) then p.now else LastUse(h, j, token)
    ensures (h + [p])[j] == h[j]
  {
    assert (h + [p])[..|h|] == h;
  }

  lemma NewIssue(h: seq<Past>, p: Past, token: Token)
    requires p.event.EvIssue? && p.event.token == token
    ensures Current(h + [p], |h|, token) && LastUse(h + [p], |h|, token) == p.now
  {
  }

  lemma NoNewIssue(h: seq<Past>, p: Past, token: Token)
    requires !(p.event.EvIssue? && p.event.token == token)
    ensures !Current(h + [p], |h|, token)
  {
  }

  /** A request is answered as the history says. */
  lemma AnswerIsExact(t: Table, h: seq<Past>, now: int, token: Token)
    requires Recorded(t, h, now)
    ensures Touch(t, token, now).1 <==> MayUse(h, token, now)
  {
    hide LastUse, Ends;
    if token in t {
      assert HasOrigin(t, h, token);
      var j: nat :| j < |h| && Current(h, j, token) && Matches(t[token], h, j, token);
      forall i: nat | i < |h| && Current(h, i, token) ensures i == j { OneCurrent(h, i, j, token); }
      assert Expired(t[token], now) <==> !InTime(h, j, token, now);
    } else {
      assert Covered(t, h, now, token);
    }
  }

  /** Time passes and the janitor may sweep. */
  lemma SweptIsRecorded(t: Table, h: seq<Past>, now: int, later: int)
    requires Recorded(t, h, now) && now <= later
    ensures Recorded(t, h, later) && Recorded(Sweep(t, later), h, later)
  {
    hide LastUse, Ends, Current;
    forall k ensures Covered(t, h, later, k) { assert Covered(t, h, now, k); }
    var t1 := Sweep(t, later);
    forall k ensures Covered(t1, h, later, k) {
      if k in t && k !in t1 {
        assert HasOrigin(t, h, k) && Expired(t[k], later);
        var j: nat :| j < |h| && Current(h, j, k) && Matches(t[k], h, j, k);
        forall i: nat | i < |h| && Current(h, i, k) ensures !InTime(h, i, k, later) { OneCurrent(h, i, j, k); }
      } else {
        assert Covered(t, h, later, k);
      }
    }
    forall k | k in t1 ensures HasOrigin(t1, h, k) {
      assert HasOrigin(t, h, k);
    }
  }

  /** A session that the event leaves alone, up to a use at this moment, keeps its origin. */
  lemma StillFromOrigin(t: Table, t1: Table, h: seq<Past>, p: Past, k: Token)
    requires k in t && k in t1 && HasOrigin(t, h, k) && !Ends(p.event, k, t[k].user, t[k].device)
    requires t1[k] == t[k].(lastSeen := t1[k].lastSeen, checkedAt := t1[k].checkedAt)
    requires t1[k].lastSeen == if Uses(p, k) then p.now else t[k].lastSeen
    ensures HasOrigin(t1, h + [p], k)
  {
    hide LastUse, Ends, Current, Uses;
    var j: nat :| j < |h| && Current(h, j, k) && Matches(t[k], h, j, k);
    CurrentSnoc(h, p, j, k);
    LastUseSnoc(h, p, j, k);
    assert Current(h + [p], j, k) && Matches(t1[k], h + [p], j, k);
  }

  /** A session that the event ends leaves nothing current behind. */
  lemma EndedIsCovered(t: Table, t1: Table, h: seq<Past>, p: Past, k: Token)
    requires k in t && HasOrigin(t, h, k) && Ends(p.event, k, t[k].user, t[k].device)
    requires !(p.event.EvIssue? && p.event.token == k)
    ensures Covered(t1, h + [p], p.now, k)
  {
    hide LastUse, Ends, Current;
    var i: nat :| i < |h| && Current(h, i, k) && Matches(t[k], h, i, k);
    forall j: nat | j < |h + [p]| ensures !Current(h + [p], j, k) {
      if j < |h| {
        CurrentSnoc(h, p, j, k);
        if Current(h, j, k) {
          OneCurrent(h, i, j, k);
        }
      } else {
        NoNewIssue(h, p, k);
      }
    }
  }

  /** A token without a session stays out of time. */
  lemma StillCovered(t: Table, t1: Table, h: seq<Past>, p: Past, k: Token)
    requires Covered(t, h, p.now, k) && k !in t && !Uses(p, k)
    ensures Covered(t1, h + [p], p.now, k)
  {
    hide LastUse, Ends, Current;
    forall j: nat | j < |h + [p]| && Current(h + [p], j, k) ensures !InTime(h + [p], j, k, p.now) {
      if j < |h| {
        CurrentSnoc(h, p, j, k);
        LastUseSnoc(h, p, j, k);
      } else {
        NoNewIssue(h, p, k);
      }
    }
  }

  /** A session that a request finds out of time goes, and stays out of time. */
  lemma DroppedIsCovered(t: Table, t1: Table, h: seq<Past>, p: Past, k: Token)
    requires k in t && HasOrigin(t, h, k) && Expired(t[k], p.now) && p.event.EvTouch? && !p.ok
    ensures Covered(t1, h + [p], p.now, k)
  {
    hide LastUse, Ends, Current;
    var i: nat :| i < |h| && Current(h, i, k) && Matches(t[k], h, i, k);
    forall j: nat | j < |h + [p]| && Current(h + [p], j, k) ensures !InTime(h + [p], j, k, p.now) {
      if j < |h| {
        CurrentSnoc(h, p, j, k);
        LastUseSnoc(h, p, j, k);
        OneCurrent(h, i, j, k);
      } else {
        NoNewIssue(h, p, k);
      }
    }
  }

  lemma IssuedIsRecorded(t: Table, h: seq<Past>, token: Token, user: int, device: int, p: Past)
    requires Recorded(t, h, p.now) && p.event == EvIssue(token, user, device)
    ensures Recorded(Issue(t, token, user, device, p.now), h + [p], p.now)
  {
    hide LastUse, Current, HasOrigin, Covered, InTime;
    var t1 := Issue(t, token, user, device, p.now);
    forall k | k in t1 ensures HasOrigin(t1, h + [p], k) {
      if k == token {
        IssuedHasOrigin(t1, h, p, token);
      } else {
        StillFromOrigin(t, t1, h, p, k);
      }
    }
    forall k ensures Covered(t1, h + [p], p.now, k) {
      if k in t1 {
        PresentIsCovered(t1, h + [p], p.now, k);
      } else if k in t {
        EndedIsCovered(t, t1, h, p, k);
      } else {
        StillCovered(t, t1, h, p, k);
      }
    }
  }

  lemma PresentIsCovered(t: Table, h: seq<Past>, now: int, k: Token)
    requires k in t
    ensures Covered(t, h, now, k)
  {
  }

  lemma IssuedHasOrigin(t1: Table, h: seq<Past>, p: Past, token: Token)
    requires p.event.EvIssue? && p.event.token == token && token in t1
    requires t1[token] == NewSession(p.event.user, p.event.device, p.now)
    ensures HasOrigin(t1, h + [p], token)
  {
    NewIssue(h, p, token);
    hide LastUse, Current;
    assert Matches(t1[token], h + [p], |h|, token);
  }

  lemma TouchedIsRecorded(t: Table, h: seq<Past>, token: Token, p: Past)
    requires Recorded(t, h, p.now) && p.event == EvTouch(token) && p.ok == Touch(t, token, p.now).1
    ensures Recorded(Touch(t, token, p.now).0, h + [p], p.now)
  {
    hide LastUse, Current, HasOrigin, Covered, InTime;
    var t1 := Touch(t, token, p.now).0;
    forall k | k in t1 ensures HasOrigin(t1, h + [p], k) { StillFromOrigin(t, t1, h, p, k); }
    forall k ensures Covered(t1, h + [p], p.now, k) {
      if k in t1 {
        PresentIsCovered(t1, h + [p], p.now, k);
      } else if k in t {
        DroppedIsCovered(t, t1, h, p, k);
      } else {
        StillCovered(t, t1, h, p, k);
      }
    }
  }

  /** The other events take away exactly the sessions they end. */
  lemma OtherIsRecorded(t: Table, t1: Table, h: seq<Past>, p: Past)
    requires Recorded(t, h, p.now) && !p.event.EvIssue? && !p.event.EvTouch? && t1 == Apply(t, p.event, p.now).0
    ensures Recorded(t1, h + [p], p.now)
  {
    hide LastUse, Current, HasOrigin, Covered, InTime;
    forall k | k in t1 ensures HasOrigin(t1, h + [p], k) { StillFromOrigin(t, t1, h, p, k); }
    forall k ensures Covered(t1, h + [p], p.now, k) {
      if k in t1 {
        PresentIsCovered(t1, h + [p], p.now, k);
      } else if k in t {
        EndedIsCovered(t, t1, h, p, k);
      } else {
        StillCovered(t, t1, h, p, k);
      }
    }
  }

  lemma ApplyIsRecorded(t: Table, h: seq<Past>, e: Event, now: int)
    requires Recorded(t, h, now)
    ensures Recorded(Apply(t, e, now).0, h + [Past(now, e, Apply(t, e, now).1)], now)
  {
    hide Recorded, Issue, Touch, RevokeDevice, RevokeUser, Confirm;
    var p := Past(now, e, Apply(t, e, now).1);
    match e
    case EvIssue(token, user, device) => IssuedIsRecorded(t, h, token, user, device, p);
    case EvTouch(token) => TouchedIsRecorded(t, h, token, p);
    case _ => OtherIsRecorded(t, Apply(t, e, now).0, h, p);
  }

  lemma AdvanceIsExact(w: World, now: int, e: Timed)
    requires Recorded(w.table, w.history, now) && AllExact(w.history) && now <= e.now
    ensures Recorded(Advance(w, e).table, Advance(w, e).history, e.now) && AllExact(Advance(w, e).history)
  {
    var h := w.history;
    var t0 := if e.sweepBefore then Sweep(w.table, e.now) else w.table;
    SweptIsRecorded(w.table, h, now, e.now);
    ApplyIsRecorded(t0, h, e.event, e.now);
    if e.event.EvTouch? {
      AnswerIsExact(t0, h, e.now, e.event.token);
    }
    hide Recorded, Sweep, Touch, MayUse;
    var h1 := Advance(w, e).history;
    forall i: nat | i < |h1| ensures Exact(h1, i) {
      assert h1[..i] == h[..i];
      if i < |h| {
        assert Exact(h, i);
      } else {
        assert h[..i] == h;
      }
    }
  }

  lemma {:induction false} RunIsExact(w: World, now: int, events: seq<Timed>)
    requires Recorded(w.table, w.history, now) && AllExact(w.history) && ClockMonotone(now, events)
    ensures AllExact(RunAll(w, events).history)
    decreases |events|
  {
    if events != [] {
      hide Recorded, AllExact, Advance;
      AdvanceIsExact(w, now, events[0]);
      RunIsExact(Advance(w, events[0]), events[0].now, events[1..]);
    }
  }

  /** In every run from the start with a clock that does not go back, swept at any moments, a request is accepted if
      and only if its token was issued at most 24 hours before, last used at most 4 hours before, and in between not
      ended by a logout, a revocation of its device or user, or another login of its user. */
  lemma RequestsAcceptedIff(now: int, events: seq<Timed>)
    requires ClockMonotone(now, events)
    ensures AllExact(RunAll(World(map[], []), events).history)
  {
    var start := World(map[], []);
    assert Recorded(start.table, start.history, now) && AllExact(start.history);
    RunIsExact(start, now, events);
  }

  // ---- The table as the server keeps it ----

  class SessionTable {
    var sessions: map<Token, Session>

    constructor ()
      ensures sessions == map[]
    {
      sessions := map[];
    }

    /** Delete, entry by entry, the sessions that satisfy a test; returns how many went. */
    method DeleteWhere(bad: Session -> bool) returns (n: nat)
      modifies this
      ensures sessions == map k | k in old(sessions) && !bad(old(sessions)[k]) :: old(sessions)[k]
      ensures n == |old(sessions)| - |sessions|
    {
      var before := sessions;
      ghost var kept := map k | k in before && !bad(before[k]) :: before[k];
      var todo := sessions.Keys;
      n := 0;
      while todo != {}
        invariant todo <= sessions.Keys <= before.Keys
        invariant forall k :: k in sessions ==> sessions[k] == before[k]
        invariant forall k :: k in before && k !in todo ==> (k in sessions <==> k in kept)
        invariant n == |before.Keys| - |sessions.Keys|
        decreases |todo|
      {
        var k :| k in todo;
        if bad(sessions[k]) {
          assert (sessions - {k}).Keys == sessions.Keys - {k};
          sessions := sessions - {k};
          n := n + 1;
        }
        todo := todo - {k};
      }
      assert sessions == kept;
    }

    method IssueSession(token: Token, user: int, device: int, now: int)
      modifies this
      ensures sessions == Issue(old(sessions), token, user, device, now)
    {
      var _ := DeleteWhere((s: Session) => s.user == user);
      sessions := sessions[token := NewSession(user, device, now)];
    }

    /** Look the token up; drop it if expired, otherwise slide its idle limit. */
    method TouchSession(token: Token, now: int) returns (ok: bool, bound: int, recheck: bool)
      modifies this
      ensures (sessions, ok) == Touch(old(sessions), token, now)
      ensures ok ==> token in old(sessions) && bound == old(sessions)[token].device
      ensures ok ==> recheck == NeedsRecheck(old(sessions)[token], now)
    {
      ok, bound, recheck := false, 0, false;
      if token !in sessions {
        return;
      }
      var s := sessions[token];
      if Expired(s, now) {
        sessions := sessions - {token};
        return;
      }
      sessions := sessions[token := s.(lastSeen := now)];
      ok, bound := true, s.device;
      recheck := NeedsRecheck(s, now);
    }

    /** The database check for a request that began at `at` succeeded; the session may be gone by now. */
    method ConfirmDevice(token: Token, at: int)
      modifies this
      ensures sessions == Confirm(old(sessions), token, at)
    {
      if token in sessions {
        sessions := sessions[token := sessions[token].(checkedAt := Some(at))];
      }
    }

    method SweepSessions(now: int) returns (n: nat)
      modifies this
      ensures sessions == Sweep(old(sessions), now) && n == |old(sessions)| - |sessions|
    {
      n := DeleteWhere((s: Session) => Expired(s, now));
    }

    method RevokeDeviceSessions(device: int) returns (n: nat)
      modifies this
      ensures sessions == RevokeDevice(old(sessions), device) && n == |old(sessions)| - |sessions|
    {
      if device == 0 {
        n := 0;
        return;
      }
      n := DeleteWhere((s: Session) => s.device == device);
    }

    method RevokeUserSessions(user: int) returns (n: nat)
      modifies this
      ensures sessions == RevokeUser(old(sessions), user) && n == |old(sessions)| - |sessions|
    {
      n := DeleteWhere((s: Session) => s.user == user);
    }
  }
}

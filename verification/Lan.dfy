/** Device admission as a protocol: the device table, the in-memory revoked set and the session table are
    separate, every request and every administrative change is several atomic steps, and the steps of any
    number of them interleave. */
module Lan {
  import D = Devices
  import S = Sessions
  import opened Sessions

  datatype LoginId = LoginId(value: int)
  datatype RequestId = RequestId(value: int)
  datatype AdminId = AdminId(value: int)

  /** A login that passed its device check and has no session yet. */
  datatype Login = Login(user: int, device: int)

  /** Started: the session was live. Passed: the revoked set does not hold the device, the database is to be
      asked. Cleared: nothing left to check. */
  datatype Stage = Started | Passed | Cleared

  datatype Request = Request(token: Token, bound: int, header: int, start: int, recheck: bool, stage: Stage)

  /** A revocation or deletion under way: the row is changed, the caches are not yet. */
  datatype Admin = Revoking(device: int) | Deleting(device: int) | Kicking(device: int, deleting: bool)

  datatype Accepted = Accepted(request: RequestId, device: int, start: int, at: int)

  /** A database check that found the device registered and not revoked. */
  datatype Check = Check(device: int, at: int)

  /** `checks`, `fenced`, `used` and `accepted` record history: the checks that succeeded, the devices whose
      revocation is complete with no deletion begun since, the tokens ever issued, the requests let through. */
  datatype State = State(
    clock: int,
    devices: D.Table,
    host: Option<int>,
    revoked: set<int>,
    sessions: S.Table,
    logins: map<LoginId, Login>,
    requests: map<RequestId, Request>,
    admins: map<AdminId, Admin>,
    checks: set<Check>,
    fenced: set<int>,
    used: set<Token>,
    accepted: seq<Accepted>)

  datatype Event =
    | Tick(seconds: nat)
    | StartHost(hash: int)
    | CheckLogin(login: LoginId, user: int, device: int, licensed: bool, limit: int)
    | IssueSession(login: LoginId, token: Token)
    | Logout(token: Token)
    | EndUser(user: int)
    | Janitor
    | Begin(request: RequestId, token: Token, header: int)
    | Validate(request: RequestId)
    | Verify(request: RequestId)
    | Finish(request: RequestId)
    | RevokeRow(admin: AdminId, device: int)
    | DeleteRow(admin: AdminId, device: int)
    | UpdateCache(admin: AdminId)
    | Kick(admin: AdminId)
    | OtherProcess(devices: D.Table)

  function HostOf(s: State): D.Option<int> { if s.host.Some? then D.Some(s.host.value) else D.None }

  // ---- The atomic steps; one that does not apply changes nothing ----

  function DoStartHost(s: State, hash: int): State {
    if s.host.Some? && s.host.value != hash then s
    else s.(devices := D.SaveSeen(s.devices, hash, D.Host), host := Some(hash))
  }

  function DoCheckLogin(s: State, l: LoginId, user: int, device: int, licensed: bool, limit: int): State {
    var r := D.LoginCheck(s.devices, HostOf(s), device, licensed, limit);
    if l in s.logins || device == 0 || r.Refused? then s
    else s.(devices := r.table, logins := s.logins[l := Login(user, device)])
  }

  function DoIssue(s: State, l: LoginId, token: Token): State {
    if l !in s.logins || token in s.used then s
    else
      var login := s.logins[l];
      s.(sessions := S.Issue(s.sessions, token, login.user, login.device, s.clock),
         logins := s.logins - {l}, used := s.used + {token})
  }

  function DoBegin(s: State, r: RequestId, token: Token, header: int): State {
    if r in s.requests then s
    else
      var (t, ok) := S.Touch(s.sessions, token, s.clock);
      if !ok then s.(sessions := t)
      else
        var was := s.sessions[token];
        var q := Request(token, was.device, header, s.clock, S.NeedsRecheck(was, s.clock), Started);
        s.(sessions := t, requests := s.requests[r := q])
  }

  function DoValidate(s: State, r: RequestId): State {
    if r !in s.requests || s.requests[r].stage != Started then s
    else
      var q := s.requests[r];
      if q.bound == 0 || q.header != q.bound || q.bound in s.revoked then s.(requests := s.requests - {r})
      else s.(requests := s.requests[r := q.(stage := if q.recheck then Passed else Cleared)])
  }

  function DoVerify(s: State, r: RequestId): State {
    if r !in s.requests || s.requests[r].stage != Passed then s
    else
      var q := s.requests[r];
      if s.host == Some(q.bound) then s.(requests := s.requests[r := q.(stage := Cleared)])
      else if q.bound in s.devices && s.devices[q.bound].status.Active? then
        s.(requests := s.requests[r := q.(stage := Cleared)], checks := s.checks + {Check(q.bound, s.clock)})
      else s.(requests := s.requests - {r})
  }

  function DoFinish(s: State, r: RequestId): State {
    if r !in s.requests || s.requests[r].stage != Cleared then s
    else
      var q := s.requests[r];
      s.(sessions := if q.recheck then S.Confirm(s.sessions, q.token, q.start) else s.sessions,
         requests := s.requests - {r},
         accepted := s.accepted + [Accepted(r, q.bound, q.start, s.clock)])
  }

  function DoRevokeRow(s: State, a: AdminId, device: int): State {
    var r := D.RevokeDevice(s.devices, HostOf(s), device);
    if a in s.admins || r.Refused? then s
    else s.(devices := r.table, admins := s.admins[a := Revoking(device)])
  }

  function DoDeleteRow(s: State, a: AdminId, device: int): State {
    var r := D.DeleteDevice(s.devices, HostOf(s), device);
    if a in s.admins || r.Refused? then s
    else s.(devices := r.table, admins := s.admins[a := Deleting(device)], fenced := s.fenced - {device})
  }

  function DoUpdateCache(s: State, a: AdminId): State {
    if a !in s.admins || s.admins[a].Kicking? then s
    else
      var d := s.admins[a].device;
      var deleting := s.admins[a].Deleting?;
      var s1 := s.(admins := s.admins[a := Kicking(d, deleting)]);
      if deleting then s1.(revoked := s.revoked - {d})
      else s1.(revoked := s.revoked + {d}, fenced := if BeingDeleted(s, d) then s.fenced else s.fenced + {d})
  }

  function DoKick(s: State, a: AdminId): State {
    if a !in s.admins || !s.admins[a].Kicking? then s
    else
      var k := s.admins[a];
      var keepHost := s.host == Some(k.device);
      s.(sessions := if k.deleting || !keepHost then S.RevokeDevice(s.sessions, k.device) else s.sessions,
         admins := s.admins - {a})
  }

  function Step(s: State, e: Event): State {
    match e
    case Tick(n) => s.(clock := s.clock + n)
    case StartHost(hash) => DoStartHost(s, hash)
    case CheckLogin(l, user, device, licensed, limit) => DoCheckLogin(s, l, user, device, licensed, limit)
    case IssueSession(l, token) => DoIssue(s, l, token)
    case Logout(token) => s.(sessions := s.sessions - {token})
    case EndUser(user) => s.(sessions := S.RevokeUser(s.sessions, user))
    case Janitor => s.(sessions := S.Sweep(s.sessions, s.clock))
    case Begin(r, token, header) => DoBegin(s, r, token, header)
    case Validate(r) => DoValidate(s, r)
    case Verify(r) => DoVerify(s, r)
    case Finish(r) => DoFinish(s, r)
    case RevokeRow(a, device) => DoRevokeRow(s, a, device)
    case DeleteRow(a, device) => DoDeleteRow(s, a, device)
    case UpdateCache(a) => DoUpdateCache(s, a)
    case Kick(a) => DoKick(s, a)
    case OtherProcess(devices) => s.(devices := devices)
  }

  predicate BeingDeleted(s: State, device: int) {
    exists a :: a in s.admins && s.admins[a] == Deleting(device)
  }

  const START := State(0, map[], None, {}, map[], map[], map[], map[], {}, {}, {}, [])

  function Run(s: State, events: seq<Event>): State
    decreases |events|
  {
    if events == [] then s else Run(Step(s, events[0]), events[1..])
  }

  // ---- An accepted request was checked less than a minute before ----

  /** The device is the host, or a check after time `from` and until now found it registered and not revoked. */
  ghost predicate Backed(s: State, device: int, from: int) {
    s.host == Some(device) || exists c :: c in s.checks && c.device == device && from <= c.at <= s.clock
  }

  ghost predicate SessionBacked(s: State, x: Session) {
    x.checkedAt.Some? ==> x.checkedAt.value <= s.clock && Backed(s, x.device, x.checkedAt.value)
  }

  ghost predicate RequestBacked(s: State, q: Request) {
    && q.start <= s.clock
    && (!q.recheck ==> Backed(s, q.bound, q.start - RECHECK_EVERY + 1))
    && (q.recheck && q.stage == Cleared ==> Backed(s, q.bound, q.start))
  }

  ghost predicate AcceptedBacked(s: State, x: Accepted) {
    x.start <= x.at <= s.clock && (s.host == Some(x.device)
      || exists c :: c in s.checks && c.device == x.device && x.start - RECHECK_EVERY < c.at <= x.at)
  }

  /** Tokens are never issued twice, so a request's token still names the session it began under. */
  ghost predicate TokensOk(s: State) {
    && (forall t :: t in s.sessions ==> t in s.used)
    && (forall r :: r in s.requests ==> s.requests[r].token in s.used)
    && (forall r :: r in s.requests && s.requests[r].token in s.sessions ==>
          s.sessions[s.requests[r].token].device == s.requests[r].bound)
  }

  ghost predicate SessionsBacked(s: State) { forall t :: t in s.sessions ==> SessionBacked(s, s.sessions[t]) }

  ghost predicate RequestsBacked(s: State) { forall r :: r in s.requests ==> RequestBacked(s, s.requests[r]) }

  ghost predicate AllBacked(s: State) { forall x :: x in s.accepted ==> AcceptedBacked(s, x) }

  ghost predicate CheckedOk(s: State) {
    TokensOk(s) && SessionsBacked(s) && RequestsBacked(s) && AllBacked(s)
  }

  /** Time, the host and the record of checks only ever grow. */
  ghost predicate Later(s: State, s1: State) {
    s.clock <= s1.clock && s.checks <= s1.checks && (s.host.Some? ==> s1.host == s.host)
  }

  lemma BackedLater(s: State, s1: State, device: int, from: int, earlier: int)
    requires Later(s, s1) && Backed(s, device, from) && earlier <= from
    ensures Backed(s1, device, earlier)
  {
  }

  lemma SessionBackedLater(s: State, s1: State, x: Session)
    requires Later(s, s1) && SessionBacked(s, x)
    ensures SessionBacked(s1, x)
  {
    if x.checkedAt.Some? {
      BackedLater(s, s1, x.device, x.checkedAt.value, x.checkedAt.value);
    }
  }

  lemma RequestBackedLater(s: State, s1: State, q: Request)
    requires Later(s, s1) && RequestBacked(s, q)
    ensures RequestBacked(s1, q)
  {
    if !q.recheck {
      BackedLater(s, s1, q.bound, q.start - RECHECK_EVERY + 1, q.start - RECHECK_EVERY + 1);
    } else if q.stage == Cleared {
      BackedLater(s, s1, q.bound, q.start, q.start);
    }
  }

  lemma AcceptedBackedLater(s: State, s1: State)
    requires Later(s, s1) && AllBacked(s)
    ensures forall x :: x in s.accepted ==> AcceptedBacked(s1, x)
  {
  }

  ghost predicate SessionsKept(t: S.Table, t1: S.Table) {
    forall k :: k in t1 ==> k in t && t1[k].device == t[k].device && t1[k].checkedAt == t[k].checkedAt
  }

  ghost predicate Quiet(s: State, s1: State) {
    Later(s, s1) && s1.requests == s.requests && s1.accepted == s.accepted && s1.used == s.used && SessionsKept(s.sessions, s1.sessions)
  }

  lemma DeviceStepsQuiet(s: State, l: LoginId, a: AdminId, user: int, device: int, licensed: bool, limit: int)
    ensures Quiet(s, DoStartHost(s, device)) && Quiet(s, DoCheckLogin(s, l, user, device, licensed, limit))
    ensures Quiet(s, DoRevokeRow(s, a, device)) && Quiet(s, DoDeleteRow(s, a, device))
  {
    hide D.SaveSeen, D.LoginCheck, D.RevokeDevice, D.DeleteDevice, HostOf;
  }

  lemma CacheStepsQuiet(s: State, a: AdminId)
    ensures Quiet(s, DoUpdateCache(s, a)) && Quiet(s, DoKick(s, a))
  {
    hide BeingDeleted;
  }

  lemma SessionStepsQuiet(s: State, token: Token, user: int)
    ensures Quiet(s, Step(s, Logout(token))) && Quiet(s, Step(s, EndUser(user))) && Quiet(s, Step(s, Janitor))
  {
    hide DoStartHost, DoCheckLogin, DoIssue, DoBegin, DoValidate, DoVerify, DoFinish, DoRevokeRow, DoDeleteRow, DoUpdateCache, DoKick;
    hide S.Expired;
  }

  /** The steps that move no request on and start no session. */
  lemma QuietStep(s: State, e: Event)
    requires !e.Begin? && !e.Validate? && !e.Verify? && !e.Finish? && !e.IssueSession?
    ensures Quiet(s, Step(s, e))
  {
    hide DoStartHost, DoCheckLogin, DoIssue, DoBegin, DoValidate, DoVerify, DoFinish, DoRevokeRow, DoDeleteRow, DoUpdateCache, DoKick;
    match e
    case Tick(n) =>
    case OtherProcess(devices) =>
    case StartHost(hash) => hide Quiet; DeviceStepsQuiet(s, LoginId(0), AdminId(0), 0, hash, true, 0);
    case CheckLogin(l, user, device, licensed, limit) => hide Quiet; DeviceStepsQuiet(s, l, AdminId(0), user, device, licensed, limit);
    case RevokeRow(a, device) => hide Quiet; DeviceStepsQuiet(s, LoginId(0), a, 0, device, true, 0);
    case DeleteRow(a, device) => hide Quiet; DeviceStepsQuiet(s, LoginId(0), a, 0, device, true, 0);
    case UpdateCache(a) => hide Quiet; CacheStepsQuiet(s, a);
    case Kick(a) => hide Quiet; CacheStepsQuiet(s, a);
    case Logout(token) => hide Quiet; SessionStepsQuiet(s, token, 0);
    case EndUser(user) => hide Quiet; SessionStepsQuiet(s, Token(0), user);
    case Janitor => hide Quiet; SessionStepsQuiet(s, Token(0), 0);
  }

  lemma SessionsKeptBacked(s: State, s1: State)
    requires SessionsBacked(s) && Later(s, s1) && SessionsKept(s.sessions, s1.sessions)
    ensures SessionsBacked(s1)
  {
    hide Later;
    forall t | t in s1.sessions ensures SessionBacked(s1, s1.sessions[t]) {
      SessionBackedLater(s, s1, s.sessions[t]);
    }
  }

  lemma RequestsStayBacked(s: State, s1: State)
    requires RequestsBacked(s) && Later(s, s1)
    ensures forall r :: r in s.requests ==> RequestBacked(s1, s.requests[r])
  {
    hide Later, RequestBacked;
    forall r | r in s.requests ensures RequestBacked(s1, s.requests[r]) {
      RequestBackedLater(s, s1, s.requests[r]);
    }
  }

  lemma QuietKeepsChecked(s: State, s1: State)
    requires CheckedOk(s) && Quiet(s, s1)
    ensures CheckedOk(s1)
  {
    hide Later, RequestBacked, SessionBacked, AcceptedBacked;
    SessionsKeptBacked(s, s1);
    RequestsStayBacked(s, s1);
    AcceptedBackedLater(s, s1);
  }

  lemma IssueKeepsChecked(s: State, l: LoginId, token: Token)
    requires CheckedOk(s)
    ensures CheckedOk(DoIssue(s, l, token))
  {
    hide Backed, RequestBacked, AcceptedBacked;
    var s1 := DoIssue(s, l, token);
    RequestsStayBacked(s, s1);
    AcceptedBackedLater(s, s1);
    forall t | t in s1.sessions ensures SessionBacked(s1, s1.sessions[t]) {
      if t in s.sessions {
        SessionBackedLater(s, s1, s.sessions[t]);
      }
    }
  }

  /** One request appears, moves on or goes; everything else is carried over. */
  lemma OneRequestMoves(s: State, s1: State, r: RequestId, q: Request)
    requires CheckedOk(s) && Later(s, s1) && SessionsKept(s.sessions, s1.sessions)
    requires s1.accepted == s.accepted && s1.used == s.used
    requires s1.requests == s.requests[r := q] || s1.requests == s.requests - {r}
    requires r in s1.requests ==> RequestBacked(s1, q) && q.token in s.used
    requires r in s1.requests && q.token in s.sessions ==> s.sessions[q.token].device == q.bound
    ensures CheckedOk(s1)
  {
    hide Backed, SessionBacked, AcceptedBacked, RequestBacked, Later;
    SessionsKeptBacked(s, s1);
    RequestsStayBacked(s, s1);
    AcceptedBackedLater(s, s1);
  }

  /** A request that needs no recheck rests on the check its session remembers, less than a minute old. */
  lemma BegunIsBacked(s: State, s1: State, r: RequestId, token: Token, header: int)
    requires SessionsBacked(s) && r !in s.requests && S.Touch(s.sessions, token, s.clock).1 && s1 == DoBegin(s, r, token, header)
    ensures r in s1.requests && RequestBacked(s1, s1.requests[r])
  {
    var was := s.sessions[token];
    assert SessionBacked(s, was);
    if !S.NeedsRecheck(was, s.clock) {
      BackedLater(s, s1, was.device, was.checkedAt.value, s.clock - RECHECK_EVERY + 1);
    }
  }

  lemma BeginKeepsChecked(s: State, r: RequestId, token: Token, header: int)
    requires CheckedOk(s)
    ensures CheckedOk(DoBegin(s, r, token, header))
  {
    hide SessionsBacked, RequestsBacked, AllBacked, S.Expired, RequestBacked;
    var s1 := DoBegin(s, r, token, header);
    if r !in s.requests && S.Touch(s.sessions, token, s.clock).1 {
      BegunIsBacked(s, s1, r, token, header);
      OneRequestMoves(s, s1, r, s1.requests[r]);
    } else {
      QuietKeepsChecked(s, s1);
    }
  }

  /** What looking at the revoked set or asking the database leaves alone, and what it makes of the request. */
  ghost predicate Moves(s: State, s1: State, r: RequestId, q: Request)
    requires r in s.requests
  {
    && (s1.requests == s.requests[r := q] || s1.requests == s.requests - {r})
    && q.token == s.requests[r].token && q.bound == s.requests[r].bound && (r in s1.requests ==> q == s1.requests[r])
    && s1.accepted == s.accepted && s1.used == s.used && s1.sessions == s.sessions && Later(s, s1)
  }

  lemma ValidateMoves(s: State, r: RequestId) returns (q: Request)
    requires r in s.requests
    ensures Moves(s, DoValidate(s, r), r, q)
  {
    q := s.requests[r];
    if q.stage != Started {
      assert s.requests[r := q] == s.requests;
    } else if !(q.bound == 0 || q.header != q.bound || q.bound in s.revoked) {
      q := q.(stage := if q.recheck then Passed else Cleared);
    }
  }

  lemma VerifyMoves(s: State, r: RequestId) returns (q: Request)
    requires r in s.requests
    ensures Moves(s, DoVerify(s, r), r, q)
  {
    q := s.requests[r];
    if q.stage != Passed {
      assert s.requests[r := q] == s.requests;
    } else if s.host == Some(q.bound) || (q.bound in s.devices && s.devices[q.bound].status.Active?) {
      q := q.(stage := Cleared);
    }
  }

  /** Looking at the revoked set clears only a request that rests on a check it already had. */
  lemma ValidatedIsBacked(s: State, r: RequestId)
    requires RequestsBacked(s) && r in s.requests && r in DoValidate(s, r).requests
    ensures RequestBacked(DoValidate(s, r), DoValidate(s, r).requests[r])
  {
    assert RequestBacked(s, s.requests[r]);
    RequestBackedLater(s, DoValidate(s, r), s.requests[r]);
  }

  /** The database check makes the request's device good as of now. */
  lemma VerifiedIsBacked(s: State, r: RequestId)
    requires RequestsBacked(s) && r in s.requests && r in DoVerify(s, r).requests
    ensures RequestBacked(DoVerify(s, r), DoVerify(s, r).requests[r])
  {
    var s1 := DoVerify(s, r);
    var q := s.requests[r];
    assert RequestBacked(s, q);
    RequestBackedLater(s, s1, q);
    if q.stage == Passed && s.host != Some(q.bound) {
      assert Check(q.bound, s.clock) in s1.checks;
    }
  }

  lemma CheckKeepsChecked(s: State, r: RequestId)
    requires CheckedOk(s)
    ensures CheckedOk(DoValidate(s, r)) && CheckedOk(DoVerify(s, r))
  {
    if r in s.requests {
      var s1, s2 := DoValidate(s, r), DoVerify(s, r);
      if r in s1.requests {
        ValidatedIsBacked(s, r);
      }
      if r in s2.requests {
        VerifiedIsBacked(s, r);
      }
      var q1 := ValidateMoves(s, r);
      var q2 := VerifyMoves(s, r);
      hide SessionsBacked, RequestsBacked, AllBacked, RequestBacked, DoValidate, DoVerify, Later;
      OneRequestMoves(s, s1, r, q1);
      OneRequestMoves(s, s2, r, q2);
    }
  }

  lemma FinishedIsBacked(s: State, r: RequestId)
    requires RequestsBacked(s) && r in s.requests && s.requests[r].stage == Cleared
    ensures var q := s.requests[r];
      && AcceptedBacked(DoFinish(s, r), Accepted(r, q.bound, q.start, s.clock))
      && q.start <= s.clock && (q.recheck ==> Backed(s, q.bound, q.start))
  {
    var q := s.requests[r];
    assert RequestBacked(s, q);
  }

  lemma FinishKeepsChecked(s: State, r: RequestId)
    requires CheckedOk(s)
    ensures CheckedOk(DoFinish(s, r))
  {
    hide Backed, AcceptedBacked, RequestBacked;
    var s1 := DoFinish(s, r);
    RequestsStayBacked(s, s1);
    AcceptedBackedLater(s, s1);
    if r in s.requests && s.requests[r].stage == Cleared {
      var q := s.requests[r];
      FinishedIsBacked(s, r);
      forall t | t in s1.sessions ensures SessionBacked(s1, s1.sessions[t]) {
        SessionBackedLater(s, s1, s.sessions[t]);
        if q.recheck {
          BackedLater(s, s1, q.bound, q.start, q.start);
        }
      }
    }
  }

  lemma StepKeepsChecked(s: State, e: Event)
    requires CheckedOk(s)
    ensures CheckedOk(Step(s, e))
  {
    hide CheckedOk, DoIssue, DoBegin, DoValidate, DoVerify, DoFinish;
    match e
    case IssueSession(l, token) => IssueKeepsChecked(s, l, token);
    case Begin(r, token, header) => BeginKeepsChecked(s, r, token, header);
    case Validate(r) => CheckKeepsChecked(s, r);
    case Verify(r) => CheckKeepsChecked(s, r);
    case Finish(r) => FinishKeepsChecked(s, r);
    case _ =>
      hide Step;
      QuietStep(s, e);
      QuietKeepsChecked(s, Step(s, e));
  }

  /** Under every interleaving, a request that is let through is bound to the host, or its device was found
      registered and not revoked by a database check made less than a minute before the request began and no
      later than its acceptance. */
  lemma {:induction false} RunKeepsChecked(s: State, events: seq<Event>)
    requires CheckedOk(s)
    ensures CheckedOk(Run(s, events))
    decreases |events|
  {
    hide CheckedOk, Step;
    if events != [] {
      StepKeepsChecked(s, events[0]);
      RunKeepsChecked(Step(s, events[0]), events[1..]);
    }
  }

  lemma AcceptedWasChecked(events: seq<Event>, x: Accepted)
    requires x in Run(START, events).accepted
    ensures AcceptedBacked(Run(START, events), x)
  {
    RunKeepsChecked(START, events);
  }

  // ---- A revocation by another process takes effect within a minute ----

  /** The device's row is revoked or gone, and it is not the host. */
  predicate Inactive(s: State, d: int) { (d in s.devices ==> s.devices[d].status.Revoked?) && s.host != Some(d) }

  /** It is so at every moment of the run, whoever changed the row. */
  predicate InactiveThroughout(s: State, events: seq<Event>, d: int)
    decreases |events|
  {
    Inactive(s, d) && (events == [] || InactiveThroughout(Step(s, events[0]), events[1..], d))
  }

  /** No check of these devices is later than t. */
  ghost predicate NoneAfter(s: State, only: Option<int>, t: int) {
    forall c :: c in s.checks && (only == None || only == Some(c.device)) ==> c.at <= t
  }

  /** Only a database check of an active device is recorded, at the current time. */
  lemma NewChecks(s: State, e: Event)
    ensures var s1 := Step(s, e);
      s1.clock >= s.clock && forall c :: c in s1.checks && c !in s.checks ==>
        c.at == s.clock && c.device in s.devices && s.devices[c.device].status.Active?
  {
    match e
    case Verify(r) => hide DoBegin, DoValidate, DoFinish, DoIssue;
    case Begin(r, token, header) => hide DoVerify, DoValidate, DoFinish, DoIssue, S.Touch;
    case Validate(r) => hide DoVerify, DoBegin, DoFinish, DoIssue;
    case Finish(r) => hide DoVerify, DoBegin, DoValidate, DoIssue;
    case IssueSession(l, token) => hide DoVerify, DoBegin, DoValidate, DoFinish, S.Issue;
    case _ =>
      hide DoIssue, DoBegin, DoValidate, DoVerify, DoFinish, BeingDeleted;
      hide D.SaveSeen, D.LoginCheck, D.RevokeDevice, D.DeleteDevice, S.RevokeUser, S.Sweep, S.RevokeDevice, HostOf;
  }

  lemma {:induction false} ChecksArePast(s: State, events: seq<Event>)
    requires NoneAfter(s, None, s.clock)
    ensures NoneAfter(Run(s, events), None, Run(s, events).clock)
    decreases |events|
  {
    hide Step;
    if events != [] {
      NewChecks(s, events[0]);
      ChecksArePast(Step(s, events[0]), events[1..]);
    }
  }

  lemma {:induction false} NoNewChecks(s: State, events: seq<Event>, d: int, t: int)
    requires NoneAfter(s, Some(d), t) && InactiveThroughout(s, events, d)
    ensures NoneAfter(Run(s, events), Some(d), t) && Inactive(Run(s, events), d)
    decreases |events|
  {
    hide Step;
    if events != [] {
      NewChecks(s, events[0]);
      NoNewChecks(Step(s, events[0]), events[1..], d, t);
    }
  }

  /** A device whose row is revoked or deleted, by this process or any other, and stays so: no request of it that
      begins a minute later or more is let through, whatever happens in between. */
  lemma OutWithinAMinute(before: seq<Event>, events: seq<Event>, d: int, x: Accepted)
    requires InactiveThroughout(Run(START, before), events, d)
    requires x in Run(Run(START, before), events).accepted && x.device == d
    ensures x.start < Run(START, before).clock + RECHECK_EVERY
  {
    hide CheckedOk, Step, InactiveThroughout;
    var s := Run(START, before);
    var end := Run(s, events);
    StartIsChecked();
    RunKeepsChecked(START, before);
    RunKeepsChecked(s, events);
    ChecksArePast(START, before);
    NoNewChecks(s, events, d, s.clock);
    assert AcceptedBacked(end, x) by { AllOf(end, x); }
  }

  lemma StartIsChecked()
    ensures CheckedOk(START)
  {
  }

  lemma AllOf(s: State, x: Accepted)
    requires CheckedOk(s) && x in s.accepted
    ensures AcceptedBacked(s, x)
  {
  }

  // ---- A revoked device stays out until it is deleted ----

  ghost predicate FenceOk(s: State) {
    forall d :: d in s.fenced ==> d in s.revoked && !BeingDeleted(s, d)
  }

  predicate Deletes(e: Event, device: int) { e.DeleteRow? && e.device == device }

  lemma UpdateKeepsFence(s: State, a: AdminId)
    requires FenceOk(s)
    ensures FenceOk(DoUpdateCache(s, a)) && s.fenced <= DoUpdateCache(s, a).fenced
  {
    var s1 := DoUpdateCache(s, a);
    forall d | d in s1.fenced ensures d in s1.revoked && !BeingDeleted(s1, d) {
      DeletedStay(s, a, d);
      if d in s.fenced {
        assert a in s.admins ==> s.admins[a] != Deleting(d);
      }
    }
  }

  /** A cache step begins no deletion. */
  lemma DeletedStay(s: State, a: AdminId, d: int)
    ensures BeingDeleted(DoUpdateCache(s, a), d) ==> BeingDeleted(s, d)
  {
  }

  lemma AdminKeepsFence(s: State, a: AdminId, device: int)
    requires FenceOk(s)
    ensures FenceOk(DoRevokeRow(s, a, device)) && s.fenced <= DoRevokeRow(s, a, device).fenced
    ensures FenceOk(DoDeleteRow(s, a, device)) && s.fenced - {device} <= DoDeleteRow(s, a, device).fenced
    ensures FenceOk(DoKick(s, a)) && s.fenced <= DoKick(s, a).fenced
  {
    hide D.RevokeDevice, D.DeleteDevice, S.RevokeDevice, HostOf;
  }

  ghost predicate FenceAlone(s: State, s1: State) {
    s1.fenced == s.fenced && s1.revoked == s.revoked && s1.admins == s.admins
  }

  lemma LoginStepsLeaveFence(s: State, l: LoginId, token: Token, user: int, device: int, licensed: bool, limit: int)
    ensures FenceAlone(s, DoStartHost(s, device)) && FenceAlone(s, DoIssue(s, l, token))
    ensures FenceAlone(s, DoCheckLogin(s, l, user, device, licensed, limit))
  {
    hide D.SaveSeen, D.LoginCheck, S.Issue, HostOf;
  }

  lemma RequestStepsLeaveFence(s: State, r: RequestId, token: Token, header: int)
    ensures FenceAlone(s, DoBegin(s, r, token, header)) && FenceAlone(s, DoValidate(s, r))
    ensures FenceAlone(s, DoVerify(s, r)) && FenceAlone(s, DoFinish(s, r))
  {
    hide S.Touch, S.Confirm, S.NeedsRecheck;
  }

  /** The steps that touch neither the fence, nor the revoked set, nor what is being deleted. */
  lemma OtherStepsLeaveFence(s: State, e: Event)
    requires !e.RevokeRow? && !e.DeleteRow? && !e.UpdateCache? && !e.Kick?
    ensures FenceAlone(s, Step(s, e))
  {
    hide DoStartHost, DoCheckLogin, DoIssue, DoBegin, DoValidate, DoVerify, DoFinish, DoRevokeRow, DoDeleteRow, DoUpdateCache, DoKick;
    match e
    case StartHost(hash) => LoginStepsLeaveFence(s, LoginId(0), Token(0), 0, hash, true, 0);
    case CheckLogin(l, user, device, licensed, limit) => LoginStepsLeaveFence(s, l, Token(0), user, device, licensed, limit);
    case IssueSession(l, token) => LoginStepsLeaveFence(s, l, token, 0, 0, true, 0);
    case Begin(r, token, header) => RequestStepsLeaveFence(s, r, token, header);
    case Validate(r) => RequestStepsLeaveFence(s, r, Token(0), 0);
    case Verify(r) => RequestStepsLeaveFence(s, r, Token(0), 0);
    case Finish(r) => RequestStepsLeaveFence(s, r, Token(0), 0);
    case _ =>
  }

  lemma StepKeepsFence(s: State, e: Event)
    requires FenceOk(s)
    ensures FenceOk(Step(s, e))
    ensures forall d :: d in s.fenced && !Deletes(e, d) ==> d in Step(s, e).fenced
  {
    match e
    case UpdateCache(a) => hide DoUpdateCache, FenceOk; UpdateKeepsFence(s, a);
    case RevokeRow(a, device) => hide DoRevokeRow, FenceOk; AdminKeepsFence(s, a, device);
    case DeleteRow(a, device) => hide DoDeleteRow, FenceOk; AdminKeepsFence(s, a, device);
    case Kick(a) => hide DoKick, FenceOk; AdminKeepsFence(s, a, 0);
    case _ =>
      hide Step;
      OtherStepsLeaveFence(s, e);
  }

  lemma {:induction false} RunKeepsFence(s: State, events: seq<Event>)
    requires FenceOk(s)
    ensures FenceOk(Run(s, events))
    decreases |events|
  {
    hide FenceOk, Step;
    if events != [] {
      StepKeepsFence(s, events[0]);
      RunKeepsFence(Step(s, events[0]), events[1..]);
    }
  }

  /** The requests bound to a device that are past the look at the revoked set. */
  function PastLook(s: State, device: int): set<RequestId> {
    set r | r in s.requests && s.requests[r].bound == device && s.requests[r].stage != Started
  }

  /** No new acceptance of the device except by a request already past the look. */
  ghost predicate OnlyPast(s: State, s1: State, d: int, past: set<RequestId>) {
    && s.accepted <= s1.accepted
    && (forall i :: |s.accepted| <= i < |s1.accepted| && s1.accepted[i].device == d ==> s1.accepted[i].request in past)
  }

  /** Nothing of the device gets past the look, and only what was past it is accepted. */
  ghost predicate Holds(s: State, s1: State, d: int) {
    PastLook(s1, d) <= PastLook(s, d) && OnlyPast(s, s1, d, PastLook(s, d))
  }

  lemma EarlyStepsHold(s: State, r: RequestId, token: Token, header: int, d: int)
    requires d in s.revoked
    ensures Holds(s, DoBegin(s, r, token, header), d) && Holds(s, DoValidate(s, r), d)
  {
    hide S.Touch, S.NeedsRecheck;
  }

  lemma LateStepsHold(s: State, r: RequestId, d: int)
    ensures Holds(s, DoVerify(s, r), d) && Holds(s, DoFinish(s, r), d)
  {
    hide S.Confirm;
  }

  /** While a device is fenced no request of it gets past the revoked set, and only those already past can
      still be let through. */
  lemma FencedStep(s: State, e: Event, d: int)
    requires FenceOk(s) && d in s.fenced && !Deletes(e, d)
    ensures var s1 := Step(s, e);
      d in s1.fenced && Holds(s, s1, d)
  {
    StepKeepsFence(s, e);
    assert d in s.revoked;
    hide FenceOk;
    match e
    case Begin(r, token, header) => hide Holds, DoBegin; EarlyStepsHold(s, r, token, header, d);
    case Validate(r) => hide Holds, DoValidate; EarlyStepsHold(s, r, Token(0), 0, d);
    case Verify(r) => hide Holds, DoVerify; LateStepsHold(s, r, d);
    case Finish(r) => hide Holds, DoFinish; LateStepsHold(s, r, d);
    case IssueSession(l, token) =>
    case _ =>
      hide Step;
      QuietStep(s, e);
  }

  /** No deletion of the device begins in the run. */
  predicate NoDeletion(events: seq<Event>, d: int) { forall i :: 0 <= i < |events| ==> !Deletes(events[i], d) }

  /** From the moment the revocation is in the cache until a deletion begins, no request bound to the device is
      accepted, whatever the interleaving, except one that had passed the revoked set before that moment. */
  lemma {:induction false} RevokedStaysOut(s: State, events: seq<Event>, d: int)
    requires FenceOk(s) && d in s.fenced && NoDeletion(events, d)
    ensures var end := Run(s, events);
      d in end.fenced && Holds(s, end, d)
    decreases |events|
  {
    if events != [] {
      hide FenceOk, Step, PastLook, Deletes;
      var s1 := Step(s, events[0]);
      FencedStep(s, events[0], d);
      StepKeepsFence(s, events[0]);
      RevokedStaysOut(s1, events[1..], d);
    }
  }

  /** Completing a revocation raises the fence, unless a deletion of the same device is already under way. */
  lemma RevocationFences(s: State, a: AdminId, d: int)
    requires a in s.admins && s.admins[a] == Revoking(d)
    ensures d in Step(s, UpdateCache(a)).fenced <==> d in s.fenced || !BeingDeleted(s, d)
    ensures d in Step(s, UpdateCache(a)).revoked
  {
  }

  /** The run lets a request of the device through. */
  ghost predicate Slips(s: State, events: seq<Event>, d: int) {
    var end := Run(s, events);
    exists i :: |s.accepted| <= i < |end.accepted| && end.accepted[i].device == d
  }

  lemma RunOne(s: State, e: Event)
    ensures Run(s, [e]) == Step(s, e)
  {
    assert [e][1..] == [];
  }

  lemma RunSplit(s: State, e: Event, rest: seq<Event>)
    ensures Run(s, [e] + rest) == Run(Step(s, e), rest)
  {
    assert ([e] + rest)[1..] == rest;
  }

  /** A request that has nothing left to check is let through by its last step. */
  lemma ClearedSlips(s: State, r: RequestId)
    requires r in s.requests && s.requests[r].stage == Cleared
    ensures Slips(s, [Finish(r)], s.requests[r].bound)
  {
    hide S.Confirm;
    var s1 := DoFinish(s, r);
    RunOne(s, Finish(r));
    assert s1.accepted[|s.accepted|].device == s.requests[r].bound;
  }

  /** A request still to be checked against the database is let through when the row is active by then. */
  lemma PassedSlips(s: State, r: RequestId) returns (events: seq<Event>)
    requires r in s.requests && s.requests[r].stage == Passed
    ensures Slips(s, events, s.requests[r].bound) && NoDeletion(events, s.requests[r].bound)
  {
    var d := s.requests[r].bound;
    var other := OtherProcess(map[d := D.Device(D.Client, D.Active)]);
    events := [other] + ([Verify(r)] + [Finish(r)]);
    var s1 := Step(s, other);
    var s2 := DoVerify(s1, r);
    assert r in s2.requests && s2.requests[r].stage == Cleared && s2.requests[r].bound == d && s2.accepted == s.accepted;
    RunSplit(s, other, [Verify(r)] + [Finish(r)]);
    RunSplit(s1, Verify(r), [Finish(r)]);
    ClearedSlips(s2, r);
  }

  /** Exactly when: once a device is fenced, some run without a deletion lets a request of it through if and only
      if one of its requests had already passed the revoked set. */
  lemma RevokedOutIff(s: State, d: int)
    requires FenceOk(s) && d in s.fenced
    ensures (exists events :: NoDeletion(events, d) && Slips(s, events, d)) <==> PastLook(s, d) != {}
  {
    if events :| NoDeletion(events, d) && Slips(s, events, d) {
      RevokedStaysOut(s, events, d);
      var end := Run(s, events);
      var i :| |s.accepted| <= i < |end.accepted| && end.accepted[i].device == d;
      assert end.accepted[i].request in PastLook(s, d);
    }
    if r :| r in PastLook(s, d) {
      if s.requests[r].stage == Cleared {
        ClearedSlips(s, r);
        assert NoDeletion([Finish(r)], d);
      } else {
        var events := PassedSlips(s, r);
      }
    }
  }

  /** A revocation that reaches the cache stays there, in every run until a deletion begins, if and only if no
      deletion of the device is already under way: a pending one takes the device out of the revoked set again. */
  lemma RevocationSticksIff(s: State, a: AdminId, d: int)
    requires FenceOk(s) && a in s.admins && s.admins[a] == Revoking(d)
    ensures var s1 := Step(s, UpdateCache(a));
      && d in s1.revoked
      && ((forall events :: NoDeletion(events, d) ==> d in Run(s1, events).revoked) <==> !BeingDeleted(s, d))
  {
    var s1 := Step(s, UpdateCache(a));
    RevocationFences(s, a, d);
    if b :| b in s.admins && s.admins[b] == Deleting(d) {
      RunOne(s1, UpdateCache(b));
      assert NoDeletion([UpdateCache(b)], d) && d !in Run(s1, [UpdateCache(b)]).revoked;
      assert BeingDeleted(s, d);
    } else {
      UpdateKeepsFence(s, a);
      forall events | NoDeletion(events, d) ensures d in Run(s1, events).revoked {
        RevokedStaysOut(s1, events, d);
        RunKeepsFence(s1, events);
      }
    }
  }

  /** A request already past the look when the revocation reaches the cache is let through after the revocation
      is complete and the device's sessions are gone. */
  lemma InFlightRequestSlipsThrough(s: State, r: RequestId, a: AdminId)
    requires r in s.requests && s.requests[r].stage == Cleared
    requires a in s.admins && s.admins[a] == Revoking(s.requests[r].bound) && !BeingDeleted(s, s.requests[r].bound)
    ensures var q, end := s.requests[r], Run(s, [UpdateCache(a), Kick(a), Finish(r)]);
      q.bound in end.fenced && end.accepted == s.accepted + [Accepted(r, q.bound, q.start, s.clock)]
  {
    hide S.RevokeDevice, S.Confirm, BeingDeleted;
    var s1 := Step(s, UpdateCache(a));
    var s2 := Step(s1, Kick(a));
    assert s1.requests == s.requests && s1.accepted == s.accepted && s1.clock == s.clock && s.requests[r].bound in s1.fenced;
    assert s2.requests == s.requests && s2.fenced == s1.fenced && s2.accepted == s.accepted && s2.clock == s.clock;
    FinishAccepts(s2, r);
    hide *;
    RunThree(s, UpdateCache(a), Kick(a), Finish(r));
  }

  lemma FinishAccepts(s: State, r: RequestId)
    requires r in s.requests && s.requests[r].stage == Cleared
    ensures var q, end := s.requests[r], Step(s, Finish(r));
      end.fenced == s.fenced && end.accepted == s.accepted + [Accepted(r, q.bound, q.start, s.clock)]
  {
    hide S.Confirm;
  }

  // ---- It happens: a run from the start ----

  const LOGIN := LoginId(1)
  const REQUEST := RequestId(1)
  const ADMIN := AdminId(1)
  const TOKEN := Token(1)

  const ADMITTED: seq<Event> := [CheckLogin(LOGIN, 1, 7, true, 5), IssueSession(LOGIN, TOKEN), Begin(REQUEST, TOKEN, 7)]
  const CLEARED: seq<Event> := [Validate(REQUEST), Verify(REQUEST), RevokeRow(ADMIN, 7)]
  const REVOKED: seq<Event> := [UpdateCache(ADMIN), Kick(ADMIN), Finish(REQUEST)]

  lemma RunThree(s: State, e0: Event, e1: Event, e2: Event)
    ensures Run(s, [e0, e1, e2]) == Step(Step(Step(s, e0), e1), e2)
  {
    hide Step;
    var es := [e0, e1, e2];
    assert es == [e0] + ([e1] + [e2]);
    RunSplit(s, e0, [e1] + [e2]);
    RunSplit(Step(s, e0), e1, [e2]);
    RunOne(Step(Step(s, e0), e1), e2);
  }

  lemma {:induction false} RunParts(s: State, a: seq<Event>, b: seq<Event>)
    ensures Run(s, a + b) == Run(Run(s, a), b)
    decreases |a|
  {
    hide Step;
    if a == [] {
      assert a + b == b;
    } else {
      assert (a + b)[1..] == a[1..] + b;
      RunParts(Step(s, a[0]), a[1..], b);
    }
  }

  /** Device 7 is registered, logs in and sends a request. */
  lemma FirstClientAdmitted()
    ensures var s := Run(START, ADMITTED);
      && s.devices == map[7 := D.Device(D.Client, D.Active)] && s.admins == map[] && s.host == None && s.clock == 0
      && s.requests == map[REQUEST := Request(TOKEN, 7, 7, 0, true, Started)] && s.accepted == [] && s.revoked == {}
  {
    RunThree(START, ADMITTED[0], ADMITTED[1], ADMITTED[2]);
    assert D.Clients(map[]) == {};
    var s1 := DoCheckLogin(START, LOGIN, 1, 7, true, 5);
    assert s1.logins[LOGIN] == Login(1, 7) && s1.devices == map[7 := D.Device(D.Client, D.Active)];
    var s2 := DoIssue(s1, LOGIN, TOKEN);
    assert s2.sessions[TOKEN] == S.NewSession(1, 7, 0);
  }

  lemma RequestCleared(s: State)
    requires s.devices == map[7 := D.Device(D.Client, D.Active)] && s.admins == map[] && s.host == None && s.clock == 0
    requires s.requests == map[REQUEST := Request(TOKEN, 7, 7, 0, true, Started)] && s.accepted == [] && s.revoked == {}
    ensures var s1 := Run(s, CLEARED);
      && s1.requests == map[REQUEST := Request(TOKEN, 7, 7, 0, true, Cleared)] && s1.accepted == [] && s1.clock == 0
      && s1.admins == map[ADMIN := Revoking(7)] && s1.devices == map[7 := D.Device(D.Client, D.Revoked)]
  {
    RunThree(s, CLEARED[0], CLEARED[1], CLEARED[2]);
    var s1 := DoValidate(s, REQUEST);
    assert s1.requests == map[REQUEST := Request(TOKEN, 7, 7, 0, true, Passed)];
    var s2 := DoVerify(s1, REQUEST);
    assert s2.requests == map[REQUEST := Request(TOKEN, 7, 7, 0, true, Cleared)];
    assert s2.devices[7 := D.Device(D.Client, D.Revoked)] == map[7 := D.Device(D.Client, D.Revoked)];
  }

  /** A run from the start in which a request is let through after its device's revocation is complete. */
  lemma RevokedRequestAccepted()
    ensures var end := Run(START, ADMITTED + (CLEARED + REVOKED));
      7 in end.fenced && end.accepted == [Accepted(REQUEST, 7, 0, 0)]
  {
    FirstClientAdmitted();
    var s := Run(START, ADMITTED);
    RequestCleared(s);
    hide Step, Run;
    RunParts(START, ADMITTED, CLEARED + REVOKED);
    RunParts(s, CLEARED, REVOKED);
    var s1 := Run(s, CLEARED);
    assert !BeingDeleted(s1, 7);
    InFlightRequestSlipsThrough(s1, REQUEST, ADMIN);
  }

  const SECOND := AdminId(2)

  /** Whichever began first, a deletion that reaches the cache after the revocation takes the device out again. */
  lemma PendingDeletionUndoes(s: State, a: AdminId, b: AdminId, d: int)
    requires a in s.admins && s.admins[a] == Revoking(d) && b in s.admins && s.admins[b] == Deleting(d)
    ensures var s1 := DoUpdateCache(s, a); d in s1.revoked && d !in DoUpdateCache(s1, b).revoked
  {
  }

  lemma BothBegin(s: State)
    requires s.devices == map[7 := D.Device(D.Client, D.Active)] && s.admins == map[] && s.host == None
    ensures var s1 := DoDeleteRow(DoRevokeRow(s, ADMIN, 7), SECOND, 7);
      ADMIN in s1.admins && s1.admins[ADMIN] == Revoking(7) && SECOND in s1.admins && s1.admins[SECOND] == Deleting(7)
  {
    assert DoRevokeRow(s, ADMIN, 7).devices[7] == D.Device(D.Client, D.Revoked);
  }

  lemma AdminSteps(s: State, a: AdminId, d: int)
    ensures Step(s, RevokeRow(a, d)) == DoRevokeRow(s, a, d) && Step(s, DeleteRow(a, d)) == DoDeleteRow(s, a, d)
    ensures Step(s, UpdateCache(a)) == DoUpdateCache(s, a)
  {
    hide DoRevokeRow, DoDeleteRow, DoUpdateCache;
  }

  const BOTH: seq<Event> := [RevokeRow(ADMIN, 7), DeleteRow(SECOND, 7), UpdateCache(ADMIN)]

  /** A run from the start in which the cache learns of a revocation and loses it again to a deletion that was
      already under way. */
  lemma DeletionUndoesRevocation()
    ensures var s := Run(START, ADMITTED + BOTH); 7 in s.revoked && 7 !in Step(s, UpdateCache(SECOND)).revoked
  {
    FirstClientAdmitted();
    hide Step, DoRevokeRow, DoDeleteRow, DoUpdateCache, Run;
    var s0 := Run(START, ADMITTED);
    var s1 := DoRevokeRow(s0, ADMIN, 7);
    var s2 := DoDeleteRow(s1, SECOND, 7);
    BothBegin(s0);
    PendingDeletionUndoes(s2, ADMIN, SECOND, 7);
    RunParts(START, ADMITTED, BOTH);
    RunThree(s0, RevokeRow(ADMIN, 7), DeleteRow(SECOND, 7), UpdateCache(ADMIN));
    AdminSteps(s0, ADMIN, 7);
    AdminSteps(s1, SECOND, 7);
    AdminSteps(s2, ADMIN, 7);
    AdminSteps(DoUpdateCache(s2, ADMIN), SECOND, 7);
  }
}

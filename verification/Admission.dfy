/** Where sessions and accepted requests come from: a login at which the device passed every check. */
module Admission {
  import D = Devices
  import S = Sessions
  import opened Lan

  /** The event is a login of the user from the device, in a state in which that device may log in. */
  predicate LoginAt(s: State, e: Event, user: int, device: int) {
    && e.CheckLogin? && e.user == user && e.device == device && device != 0
    && D.MayLogin(s.devices, HostOf(s), device, e.licensed, e.limit)
  }

  /** Some event of the run was such a login, in the state the run had then reached. */
  ghost predicate LoggedIn(start: State, events: seq<Event>, user: int, device: int) {
    exists k :: 0 <= k < |events| && LoginAt(Run(start, events[..k]), events[k], user, device)
  }

  ghost predicate DeviceLoggedIn(start: State, events: seq<Event>, device: int) {
    exists user :: LoggedIn(start, events, user, device)
  }

  // ---- One step ----

  /** Every session of `t1` is one of `t`, with its user and device. */
  predicate SameOwners(t: S.Table, t1: S.Table) {
    forall k :: k in t1 ==> k in t && t1[k].user == t[k].user && t1[k].device == t[k].device
  }

  lemma SessionChangesKeepOwners(t: S.Table, token: S.Token, user: int, device: int, now: int)
    ensures SameOwners(t, S.Touch(t, token, now).0) && SameOwners(t, S.Sweep(t, now)) && SameOwners(t, S.Confirm(t, token, now))
    ensures SameOwners(t, S.RevokeDevice(t, device)) && SameOwners(t, S.RevokeUser(t, user)) && SameOwners(t, t - {token})
  {
    hide S.Expired;
  }

  ghost predicate LoginsFrom(s: State, e: Event, s1: State) {
    forall l :: l in s1.logins ==> (l in s.logins && s1.logins[l] == s.logins[l]) || LoginAt(s, e, s1.logins[l].user, s1.logins[l].device)
  }

  ghost predicate SessionsFrom(s: State, s1: State) {
    forall k :: k in s1.sessions ==>
      || (k in s.sessions && s1.sessions[k].user == s.sessions[k].user && s1.sessions[k].device == s.sessions[k].device)
      || exists l :: l in s.logins && s.logins[l] == Login(s1.sessions[k].user, s1.sessions[k].device)
  }

  ghost predicate RequestsFrom(s: State, s1: State) {
    forall r :: r in s1.requests ==>
      || (r in s.requests && s1.requests[r].bound == s.requests[r].bound)
      || exists k :: k in s.sessions && s.sessions[k].device == s1.requests[r].bound
  }

  ghost predicate AcceptedFrom(s: State, s1: State) {
    forall x :: x in s1.accepted ==> x in s.accepted || exists r :: r in s.requests && s.requests[r].bound == x.device
  }

  ghost predicate StepsFrom(s: State, e: Event, s1: State) {
    LoginsFrom(s, e, s1) && SessionsFrom(s, s1) && RequestsFrom(s, s1) && AcceptedFrom(s, s1)
  }

  /** The steps that touch neither logins nor requests, and sessions only by taking some away or marking them. */
  lemma PlainStep(s: State, e: Event, s1: State)
    requires s1.logins == s.logins && s1.requests == s.requests && s1.accepted == s.accepted && SameOwners(s.sessions, s1.sessions)
    ensures StepsFrom(s, e, s1)
  {
  }

  lemma LoginStep(s: State, e: Event)
    requires e.CheckLogin?
    ensures StepsFrom(s, e, Step(s, e))
  {
    D.LoginAllowedIff(s.devices, HostOf(s), e.device, e.licensed, e.limit);
    hide D.LoginCheck, D.MayLogin, HostOf;
  }

  lemma IssueStep(s: State, e: Event)
    requires e.IssueSession?
    ensures StepsFrom(s, e, Step(s, e))
  {
    hide D.MayLogin, HostOf, LoginAt;
  }

  lemma BeginStep(s: State, e: Event)
    requires e.Begin?
    ensures StepsFrom(s, e, Step(s, e))
  {
    SessionChangesKeepOwners(s.sessions, e.token, 0, 0, s.clock);
    TouchFinds(s.sessions, e.token, s.clock);
    hide S.Touch, LoginAt, S.NeedsRecheck, DoStartHost, DoRevokeRow, DoDeleteRow, DoUpdateCache, DoKick, DoCheckLogin, DoIssue, DoValidate,
      DoVerify, DoFinish;
  }

  lemma TouchFinds(t: S.Table, token: S.Token, now: int)
    ensures S.Touch(t, token, now).1 ==> token in t
  {
  }

  lemma MovesFrom(s: State, e: Event, s1: State, r: RequestId, q: Request)
    requires r in s.requests && Moves(s, s1, r, q) && s1.logins == s.logins
    ensures StepsFrom(s, e, s1)
  {
    hide LoginAt;
  }

  lemma ValidateStep(s: State, r: RequestId)
    ensures StepsFrom(s, Validate(r), DoValidate(s, r))
  {
    hide StepsFrom, Moves;
    if r in s.requests {
      var q := ValidateMoves(s, r);
      MovesFrom(s, Validate(r), DoValidate(s, r), r, q);
    } else {
      PlainStep(s, Validate(r), s);
    }
  }

  lemma VerifyStep(s: State, r: RequestId)
    ensures StepsFrom(s, Verify(r), DoVerify(s, r))
  {
    hide StepsFrom, Moves;
    if r in s.requests {
      var q := VerifyMoves(s, r);
      MovesFrom(s, Verify(r), DoVerify(s, r), r, q);
    } else {
      PlainStep(s, Verify(r), s);
    }
  }

  lemma RequestStep(s: State, e: Event)
    requires e.Validate? || e.Verify?
    ensures StepsFrom(s, e, Step(s, e))
  {
    hide StepsFrom, DoValidate, DoVerify;
    if e.Validate? {
      ValidateStep(s, e.request);
    } else {
      VerifyStep(s, e.request);
    }
  }

  lemma FinishStep(s: State, e: Event)
    requires e.Finish?
    ensures StepsFrom(s, e, Step(s, e))
  {
    var r := e.request;
    if r in s.requests {
      SessionChangesKeepOwners(s.sessions, s.requests[r].token, 0, 0, s.requests[r].start);
    }
    hide S.Confirm, LoginAt;
  }

  lemma KickStep(s: State, e: Event)
    requires e.Kick?
    ensures StepsFrom(s, e, Step(s, e))
  {
    if e.admin in s.admins && s.admins[e.admin].Kicking? {
      SessionChangesKeepOwners(s.sessions, S.Token(0), 0, s.admins[e.admin].device, 0);
    }
    hide S.RevokeDevice, LoginAt, BeingDeleted;
    PlainStep(s, e, Step(s, e));
  }

  lemma SessionStep(s: State, e: Event)
    requires e.Logout? || e.EndUser? || e.Janitor?
    ensures StepsFrom(s, e, Step(s, e))
  {
    var s1 := Step(s, e);
    match e {
      case Logout(token) => SessionChangesKeepOwners(s.sessions, token, 0, 0, 0);
      case EndUser(user) => SessionChangesKeepOwners(s.sessions, S.Token(0), user, 0, 0);
      case Janitor => SessionChangesKeepOwners(s.sessions, S.Token(0), 0, 0, s.clock);
    }
    hide S.RevokeUser, S.Sweep, LoginAt, StepsFrom;
    PlainStep(s, e, s1);
  }

  lemma RowStep(s: State, e: Event)
    requires e.StartHost? || e.RevokeRow? || e.DeleteRow?
    ensures StepsFrom(s, e, Step(s, e))
  {
    hide D.SaveSeen, D.RevokeDevice, D.DeleteDevice, HostOf, StepsFrom, DoUpdateCache, DoKick, DoCheckLogin, DoIssue, DoBegin, DoValidate,
      DoVerify, DoFinish;
    PlainStep(s, e, Step(s, e));
  }

  lemma AdminStep(s: State, e: Event)
    requires e.Tick? || e.UpdateCache? || e.OtherProcess?
    ensures StepsFrom(s, e, Step(s, e))
  {
    hide BeingDeleted, StepsFrom, DoStartHost, DoRevokeRow, DoDeleteRow, DoKick, DoCheckLogin, DoIssue, DoBegin, DoValidate, DoVerify, DoFinish;
    PlainStep(s, e, Step(s, e));
  }

  lemma AnyStep(s: State, e: Event)
    ensures StepsFrom(s, e, Step(s, e))
  {
    hide Step, StepsFrom;
    match e
    case CheckLogin(_, _, _, _, _) => LoginStep(s, e);
    case IssueSession(_, _) => IssueStep(s, e);
    case Begin(_, _, _) => BeginStep(s, e);
    case Validate(_) => RequestStep(s, e);
    case Verify(_) => RequestStep(s, e);
    case Finish(_) => FinishStep(s, e);
    case Kick(_) => KickStep(s, e);
    case Logout(_) => SessionStep(s, e);
    case EndUser(_) => SessionStep(s, e);
    case Janitor => SessionStep(s, e);
    case StartHost(_) => RowStep(s, e);
    case RevokeRow(_, _) => RowStep(s, e);
    case DeleteRow(_, _) => RowStep(s, e);
    case _ => AdminStep(s, e);
  }

  // ---- Whole runs ----

  /** Everything in the state goes back to a login of the run. */
  ghost predicate AllLoggedIn(start: State, events: seq<Event>, s: State) {
    && (forall l :: l in s.logins ==> LoggedIn(start, events, s.logins[l].user, s.logins[l].device))
    && (forall k :: k in s.sessions ==> LoggedIn(start, events, s.sessions[k].user, s.sessions[k].device))
    && (forall r :: r in s.requests ==> DeviceLoggedIn(start, events, s.requests[r].bound))
    && (forall x :: x in s.accepted ==> DeviceLoggedIn(start, events, x.device))
  }

  lemma LongerRun(start: State, events: seq<Event>, e: Event, user: int, device: int)
    requires LoggedIn(start, events, user, device) || LoginAt(Run(start, events), e, user, device)
    ensures LoggedIn(start, events + [e], user, device)
  {
    hide LoginAt;
    var all := events + [e];
    if LoggedIn(start, events, user, device) {
      var k :| 0 <= k < |events| && LoginAt(Run(start, events[..k]), events[k], user, device);
      assert all[..k] == events[..k] && all[k] == events[k];
    } else {
      assert all[..|events|] == events && all[|events|] == e;
    }
  }

  lemma StepStaysLoggedIn(start: State, events: seq<Event>, e: Event, s: State, s1: State)
    requires s == Run(start, events) && AllLoggedIn(start, events, s) && StepsFrom(s, e, s1)
    ensures AllLoggedIn(start, events + [e], s1)
  {
    hide LoginAt, LoggedIn;
    var all := events + [e];
    forall user, device | LoggedIn(start, events, user, device) || LoginAt(s, e, user, device) ensures LoggedIn(start, all, user, device) {
      LongerRun(start, events, e, user, device);
    }
    assert forall device :: DeviceLoggedIn(start, events, device) ==> DeviceLoggedIn(start, all, device);
    forall k | k in s1.sessions ensures LoggedIn(start, all, s1.sessions[k].user, s1.sessions[k].device) {
      if l :| l in s.logins && s.logins[l] == Login(s1.sessions[k].user, s1.sessions[k].device) {
        assert LoggedIn(start, events, s.logins[l].user, s.logins[l].device);
      }
    }
    forall r | r in s1.requests ensures DeviceLoggedIn(start, all, s1.requests[r].bound) {
      if k :| k in s.sessions && s.sessions[k].device == s1.requests[r].bound {
        assert LoggedIn(start, events, s.sessions[k].user, s.sessions[k].device);
        assert LoggedIn(start, all, s.sessions[k].user, s1.requests[r].bound);
      }
    }
  }

  lemma RunSnoc(s: State, events: seq<Event>, e: Event)
    ensures Run(s, events + [e]) == Step(Run(s, events), e)
  {
    hide Step;
    RunParts(s, events, [e]);
    RunOne(Run(s, events), e);
  }

  lemma {:induction false} RunIsLoggedIn(start: State, events: seq<Event>)
    requires start.logins == map[] && start.sessions == map[] && start.requests == map[] && start.accepted == []
    ensures AllLoggedIn(start, events, Run(start, events))
    decreases |events|
  {
    hide LoggedIn, Step, StepsFrom;
    if events != [] {
      var before, e := events[..|events| - 1], events[|events| - 1];
      assert events == before + [e];
      RunIsLoggedIn(start, before);
      RunSnoc(start, before, e);
      AnyStep(Run(start, before), e);
      hide AllLoggedIn;
      StepStaysLoggedIn(start, before, e, Run(start, before), Run(start, events));
    }
  }

  /** Under every interleaving: a session belongs to a user and a device that logged in when the device was not
      revoked and was the host, or was licensed and registered, or found a slot free; and a request is let through
      only for a device that so logged in. */
  lemma SessionsWereAdmitted(events: seq<Event>)
    ensures var s := Run(START, events);
      && (forall k :: k in s.sessions ==> LoggedIn(START, events, s.sessions[k].user, s.sessions[k].device))
      && (forall x :: x in s.accepted ==> DeviceLoggedIn(START, events, x.device))
  {
    hide Step, Run, LoggedIn;
    RunIsLoggedIn(START, events);
  }
}

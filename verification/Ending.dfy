/** What ends a session ends it for good, a login gives one session, and the running host keeps its row: in every
    interleaving of the protocol in Lan. */
module Ending {
  import D = Devices
  import S = Sessions
  import opened Lan

  // ---- A token whose session is gone ----

  /** The token was issued, and its session is gone. */
  ghost predicate Gone(s: State, t: S.Token) { t in s.used && t !in s.sessions }

  /** No request begins under the token: those there are were there before. */
  ghost predicate NoneBegun(s: State, s1: State, t: S.Token) {
    forall r :: r in s1.requests && s1.requests[r].token == t ==> r in s.requests && s.requests[r].token == t
  }

  ghost predicate StaysGone(s: State, s1: State, t: S.Token) { Gone(s1, t) && NoneBegun(s, s1, t) }

  lemma QuietStaysGone(s: State, e: Event, t: S.Token)
    requires Gone(s, t) && !e.Begin? && !e.Validate? && !e.Verify? && !e.Finish? && !e.IssueSession?
    ensures StaysGone(s, Step(s, e), t)
  {
    QuietStep(s, e);
    hide Step;
  }

  lemma BeginStaysGone(s: State, e: Event, t: S.Token)
    requires Gone(s, t) && (e.Begin? || e.IssueSession?)
    ensures StaysGone(s, Step(s, e), t)
  {
    hide S.Expired, S.NeedsRecheck, S.NewSession;
  }

  lemma MoveStaysGone(s: State, e: Event, t: S.Token)
    requires Gone(s, t) && (e.Validate? || e.Verify? || e.Finish?)
    ensures StaysGone(s, Step(s, e), t)
  {
    match e {
      case Validate(_) => hide DoVerify, DoFinish;
      case Verify(_) => hide DoValidate, DoFinish;
      case Finish(_) => hide DoValidate, DoVerify;
      case _ =>
    }
    hide DoStartHost, DoCheckLogin, DoIssue, DoBegin, DoRevokeRow, DoDeleteRow, DoUpdateCache, DoKick, S.RevokeUser, S.Sweep;
  }

  lemma {:induction false} RunStaysGone(s: State, events: seq<Event>, t: S.Token)
    requires Gone(s, t)
    ensures StaysGone(s, Run(s, events), t)
    decreases |events|
  {
    if events != [] {
      var e := events[0];
      if e.Begin? || e.IssueSession? {
        BeginStaysGone(s, e, t);
      } else if e.Validate? || e.Verify? || e.Finish? {
        MoveStaysGone(s, e, t);
      } else {
        QuietStaysGone(s, e, t);
      }
      hide Step;
      RunStaysGone(Step(s, e), events[1..], t);
    }
  }

  /** The token's own logout, the end of its user's or its device's sessions, a later login of its user, and the janitor
      once it has expired. A host's sessions outlive the revocation of its device. */
  ghost predicate Ends(s: State, e: Event, t: S.Token)
    requires t in s.sessions
  {
    var x := s.sessions[t];
    match e
    case Logout(token) => token == t
    case EndUser(user) => user == x.user
    case Kick(a) =>
      && a in s.admins && s.admins[a].Kicking? && s.admins[a].device == x.device != 0
      && (s.admins[a].deleting || s.host != S.Some(x.device))
    case IssueSession(l, token) => l in s.logins && token !in s.used && s.logins[l].user == x.user
    case Janitor => x.expires < s.clock || 4 * 3600 < s.clock - x.lastSeen
    case Begin(r, token, _) => r !in s.requests && token == t && (x.expires < s.clock || 4 * 3600 < s.clock - x.lastSeen)
    case _ => false
  }

  predicate OfRows(e: Event) { e.StartHost? || e.CheckLogin? || e.RevokeRow? || e.DeleteRow? || e.UpdateCache? || e.Tick? || e.OtherProcess? }

  lemma RowsEndNone(s: State, e: Event, t: S.Token)
    requires t in s.sessions && OfRows(e)
    ensures !Ends(s, e, t) && t in Step(s, e).sessions
  {
    hide D.LoginCheck, D.RevokeDevice, D.DeleteDevice, D.SaveSeen, BeingDeleted, HostOf, DoIssue, DoBegin, DoValidate, DoVerify, DoFinish, DoKick;
    hide S.Sweep, S.RevokeUser;
  }

  lemma BeginEnds(s: State, e: Event, t: S.Token)
    requires t in s.sessions && e.Begin?
    ensures Ends(s, e, t) <==> t !in Step(s, e).sessions
    ensures Step(s, e).used == s.used
  {
    hide DoStartHost, DoCheckLogin, DoIssue, DoRevokeRow, DoDeleteRow, DoUpdateCache, DoKick, DoValidate, DoVerify, DoFinish;
    hide S.Sweep, S.RevokeUser, S.NeedsRecheck;
  }

  lemma MovesEndNone(s: State, e: Event, t: S.Token)
    requires t in s.sessions && (e.Validate? || e.Verify? || e.Finish?)
    ensures !Ends(s, e, t) && t in Step(s, e).sessions
  {
    match e {
      case Validate(_) => hide DoVerify, DoFinish;
      case Verify(_) => hide DoValidate, DoFinish;
      case Finish(_) => hide DoValidate, DoVerify;
      case _ =>
    }
    hide DoStartHost, DoCheckLogin, DoIssue, DoBegin, DoRevokeRow, DoDeleteRow, DoUpdateCache, DoKick, S.Sweep, S.RevokeUser;
  }

  lemma SessionsEnd(s: State, e: Event, t: S.Token)
    requires t in s.sessions && (e.IssueSession? || e.Logout? || e.EndUser? || e.Janitor? || e.Kick?)
    requires TokensOk(s)
    ensures Ends(s, e, t) <==> t !in Step(s, e).sessions
    ensures s.used <= Step(s, e).used
  {
    hide DoStartHost, DoCheckLogin, DoBegin, DoValidate, DoVerify, DoFinish, DoRevokeRow, DoDeleteRow, DoUpdateCache;
  }

  lemma EndsNow(s: State, e: Event, t: S.Token)
    requires TokensOk(s) && t in s.sessions
    ensures Ends(s, e, t) <==> t !in Step(s, e).sessions
    ensures Ends(s, e, t) ==> Gone(Step(s, e), t)
  {
    hide Step, Ends;
    if OfRows(e) {
      RowsEndNone(s, e, t);
    } else if e.Validate? || e.Verify? || e.Finish? {
      MovesEndNone(s, e, t);
    } else if e.Begin? {
      BeginEnds(s, e, t);
    } else {
      SessionsEnd(s, e, t);
    }
  }

  /** A session ends at exactly these steps, and then for good: in every later run the token has no session, and no
      request begins under it. */
  lemma SessionEndsIff(before: seq<Event>, e: Event, after: seq<Event>, t: S.Token)
    requires t in Run(START, before).sessions
    ensures var s := Run(START, before); var s1 := Step(s, e);
      && (Ends(s, e, t) <==> t !in s1.sessions)
      && (Ends(s, e, t) ==> t !in Run(s1, after).sessions && NoneBegun(s1, Run(s1, after), t))
  {
    StartIsChecked();
    RunKeepsChecked(START, before);
    var s := Run(START, before);
    EndsNow(s, e, t);
    hide Run, Step, Ends;
    if Ends(s, e, t) {
      RunStaysGone(Step(s, e), after, t);
    }
  }

  // ---- One session for each login ----

  predicate Checks(e: Event, l: LoginId) { e.CheckLogin? && e.login == l }

  lemma StepStaysSpent(s: State, e: Event, l: LoginId)
    requires l !in s.logins && !Checks(e, l)
    ensures l !in Step(s, e).logins
  {
    hide D.LoginCheck, D.RevokeDevice, D.DeleteDevice, D.SaveSeen, BeingDeleted, HostOf, S.NeedsRecheck, S.Touch, S.Issue;
    match e
    case CheckLogin(_, _, _, _, _) =>
    case _ =>
  }

  lemma {:induction false} RunStaysSpent(s: State, events: seq<Event>, l: LoginId)
    requires l !in s.logins && forall i :: 0 <= i < |events| ==> !Checks(events[i], l)
    ensures l !in Run(s, events).logins
    decreases |events|
  {
    if events != [] {
      StepStaysSpent(s, events[0], l);
      hide Step;
      RunStaysSpent(Step(s, events[0]), events[1..], l);
    }
  }

  /** A login's check is used up by the session it gives: until the login is checked again, no other comes of it. */
  lemma OneSessionPerCheck(s: State, l: LoginId, first: S.Token, events: seq<Event>, second: S.Token)
    requires l in s.logins && first !in s.used && forall i :: 0 <= i < |events| ==> !Checks(events[i], l)
    ensures var s1 := Step(s, IssueSession(l, first)); var s2 := Run(s1, events);
      first in s1.sessions && Step(s2, IssueSession(l, second)) == s2
  {
    RunStaysSpent(Step(s, IssueSession(l, first)), events, l);
    hide Run;
  }

  // ---- The host's row ----

  /** The host's row says so and is active. */
  ghost predicate HostRowOk(s: State) {
    s.host.Some? ==> s.host.value in s.devices && s.devices[s.host.value] == D.Device(D.Host, D.Active)
  }

  lemma StepKeepsHostRow(s: State, e: Event)
    requires HostRowOk(s) && !e.OtherProcess?
    ensures HostRowOk(Step(s, e)) && (s.host.Some? ==> Step(s, e).host == s.host)
    ensures e.StartHost? && (s.host.None? || s.host == S.Some(e.hash)) ==> Step(s, e).host == S.Some(e.hash)
  {
    hide BeingDeleted, S.NeedsRecheck, S.Touch, S.Issue, D.RegisterClient;
    match e
    case StartHost(_) =>
    case CheckLogin(_, _, device, licensed, limit) => D.LoginAllowedIff(s.devices, HostOf(s), device, licensed, limit); hide D.LoginCheck;
    case RevokeRow(_, device) => D.ChangeAllowedIff(s.devices, HostOf(s), device); hide D.RevokeDevice;
    case DeleteRow(_, device) => D.ChangeAllowedIff(s.devices, HostOf(s), device); hide D.DeleteDevice;
    case _ =>
  }

  /** Once the host is registered its row is an active host row, under every interleaving of this process's own steps:
      no login, revocation or deletion touches it. Only another process on the database can. */
  lemma {:induction false} HostRowStays(s: State, events: seq<Event>)
    requires HostRowOk(s) && forall i :: 0 <= i < |events| ==> !events[i].OtherProcess?
    ensures HostRowOk(Run(s, events)) && (s.host.Some? ==> Run(s, events).host == s.host)
    decreases |events|
  {
    if events != [] {
      StepKeepsHostRow(s, events[0]);
      hide Step, HostRowOk;
      HostRowStays(Step(s, events[0]), events[1..]);
    }
  }
}

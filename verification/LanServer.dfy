/** The server's own code for a request and for a device change, statement by statement. Each method equals its
    steps of the protocol in module Lan run without interference, so the protocol's theorems are about them. */
module LanServer {
  import D = Devices
  import S = Sessions
  import opened Lan

  /** The protocol state that corresponds to the server between two calls. */
  function View(now: int, devices: D.Table, host: S.Option<int>, revoked: set<int>, sessions: S.Table): State {
    State(now, devices, host, revoked, sessions, map[], map[], map[], {}, {}, {}, [])
  }

  const REQUEST := RequestId(0)
  const ADMIN := AdminId(0)

  /** A request alone: live session, revoked set, database when due, accepted. */
  function RequestAlone(s: State, token: S.Token, header: int): State {
    DoFinish(DoVerify(DoValidate(DoBegin(s, REQUEST, token, header), REQUEST), REQUEST), REQUEST)
  }

  /** An administrator's change alone: the row, the cache, the sessions. */
  function ChangeAlone(s: State, device: int, deleting: bool): State {
    var s1 := if deleting then DoDeleteRow(s, ADMIN, device) else DoRevokeRow(s, ADMIN, device);
    DoKick(DoUpdateCache(s1, ADMIN), ADMIN)
  }

  /** The cache and the sessions, once the row was written. */
  lemma CacheThenKick(s: State, device: int, deleting: bool)
    requires ADMIN in s.admins && s.admins[ADMIN] == if deleting then Deleting(device) else Revoking(device)
    ensures var end := DoKick(DoUpdateCache(s, ADMIN), ADMIN);
      && end.host == s.host && end.devices == s.devices
      && end.revoked == (if deleting then s.revoked - {device} else s.revoked + {device})
      && end.sessions == if deleting || s.host != S.Some(device) then S.RevokeDevice(s.sessions, device) else s.sessions
  {
    hide S.RevokeDevice, BeingDeleted;
    var s1 := DoUpdateCache(s, ADMIN);
    assert s1.admins[ADMIN] == Kicking(device, deleting) && s1.sessions == s.sessions && s1.host == s.host;
  }

  lemma NoChangePending(s: State)
    requires ADMIN !in s.admins
    ensures DoKick(DoUpdateCache(s, ADMIN), ADMIN) == s
  {
  }

  /** What a change amounts to: nothing when it is refused. */
  lemma ChangeAmountsTo(s: State, device: int, deleting: bool)
    requires s.admins == map[] && s.fenced == {}
    ensures var end := ChangeAlone(s, device, deleting);
      var r := if deleting then D.DeleteDevice(s.devices, HostOf(s), device) else D.RevokeDevice(s.devices, HostOf(s), device);
      && end.host == s.host
      && end.devices == (if r.Ok? then r.table else s.devices)
      && end.revoked == (if r.Refused? then s.revoked else if deleting then s.revoked - {device} else s.revoked + {device})
      && end.sessions == if r.Ok? && (deleting || s.host != S.Some(device)) then S.RevokeDevice(s.sessions, device) else s.sessions
  {
    hide S.RevokeDevice, D.RevokeDevice, D.DeleteDevice, HostOf, BeingDeleted, DoKick, DoUpdateCache;
    var s1 := if deleting then DoDeleteRow(s, ADMIN, device) else DoRevokeRow(s, ADMIN, device);
    if s1 == s {
      NoChangePending(s);
    } else {
      CacheThenKick(s1, device, deleting);
    }
  }

  lemma RequestAloneIsRun(s: State, token: S.Token, header: int)
    ensures RequestAlone(s, token, header) == Run(s, [Begin(REQUEST, token, header), Validate(REQUEST), Verify(REQUEST), Finish(REQUEST)])
  {
    hide DoBegin, DoValidate, DoVerify, DoFinish;
    var es := [Begin(REQUEST, token, header), Validate(REQUEST), Verify(REQUEST), Finish(REQUEST)];
    var s1 := DoBegin(s, REQUEST, token, header);
    var s2 := DoValidate(s1, REQUEST);
    var s3 := DoVerify(s2, REQUEST);
    assert es[1..] == [Validate(REQUEST), Verify(REQUEST), Finish(REQUEST)];
    assert es[1..][1..] == [Verify(REQUEST), Finish(REQUEST)];
    assert es[1..][1..][1..] == [Finish(REQUEST)];
    assert Run(s, es) == Run(s1, es[1..]) == Run(s2, es[1..][1..]) == Run(s3, es[1..][1..][1..]);
    assert Run(s3, [Finish(REQUEST)]) == Run(DoFinish(s3, REQUEST), [Finish(REQUEST)][1..]);
  }

  /** A request alone is let through exactly when its session is live, its device is the one the session is bound to
      and not in the revoked set, and that device was checked less than a minute ago, or is the host, or is an active
      row. */
  lemma RequestAloneAcceptedIff(s: State, token: S.Token, header: int)
    requires s.requests == map[] && s.accepted == []
    ensures RequestAlone(s, token, header).accepted != [] <==>
      && token in s.sessions
      && var x := s.sessions[token];
      && s.clock <= x.expires && s.clock - x.lastSeen <= S.IDLE_TTL
      && x.device != 0 && header == x.device && x.device !in s.revoked
      && ((x.checkedAt.Some? && s.clock - x.checkedAt.value < S.RECHECK_EVERY) || s.host == S.Some(x.device)
          || (x.device in s.devices && s.devices[x.device].status.Active?))
  {
    var s1 := DoBegin(s, REQUEST, token, header);
    if token in s.sessions && !S.Expired(s.sessions[token], s.clock) {
      var x := s.sessions[token];
      var q := Request(token, x.device, header, s.clock, S.NeedsRecheck(x, s.clock), Started);
      BegunAlone(s, token, header, q);
      DecidedAlone(s1, q);
    } else {
      assert REQUEST !in s1.requests && s1.accepted == [];
      hide DoBegin;
    }
  }

  /** A check that was due and succeeded holds for a minute: until then a request of the session is let through
      whatever has become of the device's row, as long as the revoked set does not hold the device. */
  lemma CheckHoldsForAMinute(s: State, token: S.Token, header: int, later: State)
    requires s.requests == map[] && s.accepted == [] && RequestAlone(s, token, header).accepted != []
    requires S.NeedsRecheck(s.sessions[token], s.clock)
    requires later.sessions == RequestAlone(s, token, header).sessions && later.requests == map[] && later.accepted == []
    requires s.clock <= later.clock < s.clock + 60 && later.clock <= s.sessions[token].expires
    ensures RequestAlone(later, token, header).accepted != [] <==> header !in later.revoked
  {
    RequestAloneAcceptedIff(s, token, header);
    RequestAloneAcceptedIff(later, token, header);
    var x := s.sessions[token];
    BegunAlone(s, token, header, Request(token, x.device, header, s.clock, true, Started));
    CheckedSession(DoBegin(s, REQUEST, token, header), token);
    hide RequestAlone, DoBegin, DoValidate, DoVerify, DoFinish;
  }

  lemma CheckedSession(s: State, token: S.Token)
    requires REQUEST in s.requests && token in s.sessions && s.requests[REQUEST].token == token && s.requests[REQUEST].recheck
    requires s.requests[REQUEST].stage == Started && s.accepted == []
    requires DoFinish(DoVerify(DoValidate(s, REQUEST), REQUEST), REQUEST).accepted != []
    ensures DoFinish(DoVerify(DoValidate(s, REQUEST), REQUEST), REQUEST).sessions ==
      s.sessions[token := s.sessions[token].(checkedAt := S.Some(s.requests[REQUEST].start))]
  {
  }

  lemma BegunAlone(s: State, token: S.Token, header: int, q: Request)
    requires s.requests == map[] && token in s.sessions && !S.Expired(s.sessions[token], s.clock)
    requires q == Request(token, s.sessions[token].device, header, s.clock, S.NeedsRecheck(s.sessions[token], s.clock), Started)
    ensures var s1 := DoBegin(s, REQUEST, token, header);
      && s1.requests == map[REQUEST := q] && s1.accepted == s.accepted
      && s1.revoked == s.revoked && s1.host == s.host && s1.devices == s.devices
  {
    hide S.Expired, S.NeedsRecheck;
  }

  lemma DecidedAlone(s: State, q: Request)
    requires s.requests == map[REQUEST := q] && q.stage == Started && s.accepted == []
    ensures DoFinish(DoVerify(DoValidate(s, REQUEST), REQUEST), REQUEST).accepted != [] <==>
      && q.bound != 0 && q.header == q.bound && q.bound !in s.revoked
      && (!q.recheck || s.host == S.Some(q.bound) || (q.bound in s.devices && s.devices[q.bound].status.Active?))
  {
    hide S.Confirm;
    var s1 := DoValidate(s, REQUEST);
    if q.bound != 0 && q.header == q.bound && q.bound !in s.revoked {
      assert s1.requests[REQUEST] == q.(stage := if q.recheck then Passed else Cleared);
    } else {
      assert REQUEST !in s1.requests;
    }
  }

  class Server {
    const devices: D.DeviceTable
    const sessions: S.SessionTable
    var hostId: S.Option<int>
    var revoked: set<int>

    constructor ()
      ensures fresh(devices) && fresh(sessions) && hostId.None? && revoked == {}
      ensures devices.devices == map[] && sessions.sessions == map[]
    {
      devices := new D.DeviceTable();
      sessions := new S.SessionTable();
      hostId, revoked := S.None, {};
    }

    function At(now: int): State
      reads this, devices, sessions
    {
      View(now, devices.devices, hostId, revoked, sessions.sessions)
    }

    predicate IsHostDevice(device: int)
      reads this
    {
      hostId == S.Some(device)
    }

    /** Register this machine as the host; a machine's fingerprint does not change. */
    method EnsureHostDevice(fingerprint: int)
      requires hostId.None? || hostId == S.Some(fingerprint)
      modifies this`hostId, devices
      ensures forall now :: At(now) == DoStartHost(old(At(now)), fingerprint)
    {
      devices.SaveDeviceSeen(fingerprint, D.Host);
      hostId := S.Some(fingerprint);
    }

    method ValidateSession(device: int) returns (ok: bool)
      ensures ok <==> device != 0 && device !in revoked
    {
      if device == 0 {
        return false;
      }
      ok := device !in revoked;
    }

    method VerifyDevice(device: int) returns (ok: bool)
      ensures ok <==> IsHostDevice(device) || (device in devices.devices && devices.devices[device].status.Active?)
    {
      if IsHostDevice(device) {
        return true;
      }
      if device !in devices.devices {
        return false;
      }
      ok := devices.devices[device].status.Active?;
    }

    /** A request is let through exactly when its steps, run alone, end in an acceptance; the session table is
        theirs too. */
    method UserFromRequest(token: S.Token, header: int, now: int) returns (ok: bool)
      modifies sessions
      ensures var end := RequestAlone(old(At(now)), token, header);
        sessions.sessions == end.sessions && (ok <==> end.accepted != [])
    {
      var live, bound, recheck := sessions.TouchSession(token, now);
      if !live {
        return false;
      }
      if bound == 0 || header != bound {
        return false;
      }
      var valid := ValidateSession(header);
      if !valid {
        return false;
      }
      if recheck {
        var verified := VerifyDevice(header);
        if !verified {
          return false;
        }
        sessions.ConfirmDevice(token, now);
      }
      ok := true;
    }

    predicate ProtectedHostDevice(device: int)
      reads this, devices
    {
      IsHostDevice(device) || (device in devices.devices && devices.devices[device].kind.Host?)
    }

    /** Revoke the row, then the cache; a device without an identifier, the host and an unknown device are
        refused. */
    method RevokeDevice(device: int) returns (refused: bool)
      modifies this`revoked, devices
      ensures refused <==> device == 0 || D.RevokeDevice(old(devices.devices), HostOf(old(At(0))), device).Refused?
      ensures var was := old(devices.devices);
        devices.devices == if refused then was else was[device := was[device].(status := D.Revoked)]
      ensures revoked == if refused then old(revoked) else old(revoked) + {device}
    {
      if device == 0 || ProtectedHostDevice(device) {
        return true;
      }
      var found := devices.MarkRevoked(device);
      if !found {
        return true;
      }
      revoked := revoked + {device};
      refused := false;
    }

    method DeleteDevice(device: int) returns (refused: bool)
      modifies this`revoked, devices
      ensures refused <==> D.DeleteDevice(old(devices.devices), HostOf(old(At(0))), device).Refused?
      ensures devices.devices == if refused then old(devices.devices) else old(devices.devices) - {device}
      ensures revoked == if refused then old(revoked) else old(revoked) - {device}
    {
      if ProtectedHostDevice(device) {
        return true;
      }
      var found := devices.DeleteRow(device);
      if !found {
        return true;
      }
      revoked := revoked - {device};
      refused := false;
    }

    /** The handler: change the row and the cache, and only then end the device's sessions. */
    method ChangeDevice(device: int, deleting: bool, now: int) returns (refused: bool)
      modifies this`revoked, devices, sessions
      ensures device == 0 ==> refused
      ensures refused ==> At(now) == old(At(now))
      ensures device != 0 ==>
        var end := ChangeAlone(old(At(now)), device, deleting);
        && devices.devices == end.devices && revoked == end.revoked && sessions.sessions == end.sessions && hostId == end.host
    {
      if device == 0 {
        return true;
      }
      ChangeAmountsTo(At(now), device, deleting);
      hide ChangeAlone;
      if deleting {
        refused := DeleteDevice(device);
      } else {
        refused := RevokeDevice(device);
      }
      if refused {
        return;
      }
      var keepHost := IsHostDevice(device);
      if deleting || !keepHost {
        var _ := sessions.RevokeDeviceSessions(device);
      }
    }
  }

  /** After a revocation every session bound to the device is gone, its row says revoked and the cache knows. */
  lemma RevocationTakesEffect(s: State, device: int)
    requires device != 0 && s.admins == map[] && !D.RevokeDevice(s.devices, HostOf(s), device).Refused?
    ensures var end := ChangeAlone(s, device, false);
      && device in end.devices && end.devices[device].status.Revoked? && device in end.revoked && device in end.fenced
      && (forall t :: t in end.sessions <==> t in s.sessions && s.sessions[t].device != device)
  {
    var s1 := DoRevokeRow(s, ADMIN, device);
    assert !BeingDeleted(s1, device);
    var s2 := DoUpdateCache(s1, ADMIN);
    assert s2.host == s.host && s2.admins[ADMIN] == Kicking(device, false);
  }
}

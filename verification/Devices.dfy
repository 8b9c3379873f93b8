/** Device registration: the licence limit on clients, and the host that is never locked out. */
module Devices {

  datatype Option<+T> = None | Some(value: T)

  datatype Kind = Host | Client

  datatype Status = Active | Revoked

  datatype Device = Device(kind: Kind, status: Status)

  /** The device table, keyed by fingerprint hash: at most one row per hash. */
  type Table = map<int, Device>

  // ---- The table operations ----

  /** saveDeviceSeen: refresh the row (a host's also back to active), or insert an active one. */
  function SaveSeen(t: Table, hash: int, kind: Kind): Table {
    if hash in t then t[hash := Device(kind, if kind.Host? then Active else t[hash].status)]
    else t[hash := Device(kind, Active)]
  }

  function Clients(t: Table): set<int> { set h | h in t && t[h].kind.Client? }

  /** COUNT(*) of client rows, whatever their status. */
  function CountClients(t: Table): nat { |Clients(t)| }

  datatype Refusal = Missing | IsRevoked | NoLicense | LimitReached | NotFound | Protected

  datatype Result = Ok(table: Table) | Refused(why: Refusal)

  /** registerClientDevice: a known active device is refreshed; a new one needs a free slot (a negative limit
      means no limit). */
  function RegisterClient(t: Table, hash: int, limit: int): Result {
    if hash in t then
      if t[hash].status.Revoked? then Refused(IsRevoked) else Ok(SaveSeen(t, hash, Client))
    else if 0 <= limit <= CountClients(t) then Refused(LimitReached)
    else Ok(SaveSeen(t, hash, Client))
  }

  /** LoginCheck with the cached host fingerprint (None before it is registered) and the licence state. */
  function LoginCheck(t: Table, host: Option<int>, hash: int, licensed: bool, limit: int): Result {
    if hash in t && t[hash].status.Revoked? then Refused(IsRevoked)
    else if host == Some(hash) then Ok(SaveSeen(t, hash, Host))
    else if !licensed then Refused(NoLicense)
    else RegisterClient(t, hash, limit)
  }

  predicate IsProtected(t: Table, host: Option<int>, hash: int) {
    host == Some(hash) || (hash in t && t[hash].kind.Host?)
  }

  function RevokeDevice(t: Table, host: Option<int>, hash: int): Result {
    if IsProtected(t, host, hash) then Refused(Protected)
    else if hash !in t then Refused(NotFound)
    else Ok(t[hash := t[hash].(status := Revoked)])
  }

  function DeleteDevice(t: Table, host: Option<int>, hash: int): Result {
    if IsProtected(t, host, hash) then Refused(Protected)
    else if hash !in t then Refused(NotFound)
    else Ok(t - {hash})
  }

  // ---- Who is let in, and what may be changed ----

  /** Nobody revoked; the host always; another device under a licence, if it is registered or a slot is free. */
  predicate MayLogin(t: Table, host: Option<int>, hash: int, licensed: bool, limit: int) {
    && (hash in t ==> t[hash].status.Active?)
    && (host == Some(hash) || (licensed && (hash in t || limit < 0 || CountClients(t) < limit)))
  }

  /** A login is admitted exactly then, and leaves an active row of its kind; otherwise the reason is the first of:
      revoked, no licence, no slot. */
  lemma LoginAllowedIff(t: Table, host: Option<int>, hash: int, licensed: bool, limit: int)
    ensures var r := LoginCheck(t, host, hash, licensed, limit);
      && (r.Ok? <==> MayLogin(t, host, hash, licensed, limit))
      && (r.Ok? ==> r.table == t[hash := Device(if host == Some(hash) then Host else Client, Active)])
      && (r == Refused(IsRevoked) <==> hash in t && t[hash].status.Revoked?)
      && (r == Refused(NoLicense) <==> (hash in t ==> t[hash].status.Active?) && host != Some(hash) && !licensed)
      && (r == Refused(LimitReached) <==> hash !in t && host != Some(hash) && licensed && 0 <= limit <= CountClients(t))
  {
    hide CountClients;
  }

  /** Only a client's row can be revoked or deleted, and nothing else changes. */
  lemma ChangeAllowedIff(t: Table, host: Option<int>, hash: int)
    ensures var mine := hash in t && t[hash].kind.Client? && host != Some(hash);
      && (RevokeDevice(t, host, hash).Ok? <==> mine) && (DeleteDevice(t, host, hash).Ok? <==> mine)
      && (mine ==> RevokeDevice(t, host, hash).table == t[hash := Device(Client, Revoked)])
      && (mine ==> DeleteDevice(t, host, hash).table == t - {hash})
    ensures hash !in t && host != Some(hash) ==>
      RevokeDevice(t, host, hash) == Refused(NotFound) && DeleteDevice(t, host, hash) == Refused(NotFound)
  {
  }

  /** Being seen again puts a revoked host back and leaves a revoked client revoked; no other row changes. */
  lemma SeenAgain(t: Table, hash: int, kind: Kind)
    ensures var t1 := SaveSeen(t, hash, kind);
      && hash in t1 && t1[hash].kind == kind
      && (t1[hash].status.Revoked? <==> kind.Client? && hash in t && t[hash].status.Revoked?)
      && (forall h :: h != hash ==> (h in t1 <==> h in t) && (h in t ==> t1[h] == t[h]))
  {
  }

  // ---- Counting ----

  lemma CountAfter(t: Table, hash: int, row: Device)
    ensures Clients(t[hash := row]) == if row.kind.Client? then Clients(t) + {hash} else Clients(t) - {hash}
  {
  }

  predicate IsClient(t: Table, hash: int) { hash in t && t[hash].kind.Client? }

  function One(b: bool): int { if b then 1 else 0 }

  /** Writing a row moves the count by whether it is a client's now and was before. */
  lemma CountWritten(t: Table, hash: int, row: Device)
    ensures CountClients(t[hash := row]) == CountClients(t) + One(row.kind.Client?) - One(IsClient(t, hash))
  {
    CountAfter(t, hash, row);
    var clients := Clients(t);
    assert hash in clients <==> IsClient(t, hash);
    if hash in clients {
      assert clients + {hash} == clients;
    } else {
      assert clients - {hash} == clients;
    }
  }

  lemma CountWithout(t: Table, hash: int)
    ensures Clients(t - {hash}) == Clients(t) - {hash}
  {
  }

  /** A row that still says host although the host is another machine: an old host's fingerprint. */
  predicate StaleHost(t: Table, host: Option<int>, hash: int) {
    hash in t && t[hash].kind.Host? && host != Some(hash)
  }

  // ---- The limit ----

  /** Starting within the limit, an admitted login ends within it, except exactly one way: the login came under
      a stale host row and the limit was already used up. */
  lemma LoginKeepsLimitIff(t: Table, host: Option<int>, hash: int, limit: int)
    requires 0 <= limit && CountClients(t) <= limit && LoginCheck(t, host, hash, true, limit).Ok?
    ensures CountClients(LoginCheck(t, host, hash, true, limit).table) <= limit
       <==> !(StaleHost(t, host, hash) && CountClients(t) == limit)
  {
    hide CountClients;
    CountWritten(t, hash, LoginCheck(t, host, hash, true, limit).table[hash]);
  }

  /** A device that is registered as a client and not revoked is admitted even when no slot is free. */
  lemma KnownClientAlwaysAdmitted(t: Table, host: Option<int>, hash: int, limit: int)
    requires hash in t && t[hash] == Device(Client, Active) && host != Some(hash)
    ensures LoginCheck(t, host, hash, true, limit) == Ok(t)
  {
    assert t[hash := Device(Client, Active)] == t;
  }

  /** The host is admitted without a licence and uses no slot; its row cannot be revoked or deleted. */
  lemma HostAlwaysAdmitted(t: Table, hash: int, licensed: bool, limit: int)
    requires hash in t ==> t[hash].status.Active?
    ensures var r := LoginCheck(t, Some(hash), hash, licensed, limit);
      && r.Ok? && CountClients(r.table) <= CountClients(t) && r.table[hash] == Device(Host, Active)
      && RevokeDevice(r.table, Some(hash), hash) == Refused(Protected)
      && DeleteDevice(r.table, Some(hash), hash) == Refused(Protected)
  {
    CountAfter(t, hash, Device(Host, Active));
    if hash !in Clients(t) {
      assert Clients(t) - {hash} == Clients(t);
    }
  }

  /** Revoking never frees a slot; deleting a client frees exactly one. */
  lemma OnlyDeletingFreesSlots(t: Table, host: Option<int>, hash: int)
    ensures RevokeDevice(t, host, hash).Ok? ==> CountClients(RevokeDevice(t, host, hash).table) == CountClients(t)
    ensures DeleteDevice(t, host, hash).Ok? ==> CountClients(DeleteDevice(t, host, hash).table) == CountClients(t) - 1
  {
    if RevokeDevice(t, host, hash).Ok? {
      assert hash in Clients(t);
      CountAfter(t, hash, t[hash].(status := Revoked));
      assert Clients(t) + {hash} == Clients(t);
      CountWithout(t, hash);
    }
  }

  // ---- Runs ----

  datatype Op =
    | OpLogin(hash: int, licensed: bool)
    | OpRevoke(hash: int)
    | OpDelete(hash: int)
    | OpStartHost

  /** One operation under a fixed limit and a fixed host fingerprint; OpStartHost registers the host at start. */
  function Step(t: Table, host: int, limit: int, op: Op): Table {
    match op
    case OpLogin(hash, licensed) => var r := LoginCheck(t, Some(host), hash, licensed, limit); if r.Ok? then r.table else t
    case OpRevoke(hash) => var r := RevokeDevice(t, Some(host), hash); if r.Ok? then r.table else t
    case OpDelete(hash) => var r := DeleteDevice(t, Some(host), hash); if r.Ok? then r.table else t
    case OpStartHost => SaveSeen(t, host, Host)
  }

  function Run(t: Table, host: int, limit: int, ops: seq<Op>): Table
    decreases |ops|
  {
    if ops == [] then t else Run(Step(t, host, limit, ops[0]), host, limit, ops[1..])
  }

  /** No login of the run comes under a stale host row. */
  predicate NoStaleLogin(t: Table, host: int, limit: int, ops: seq<Op>)
    decreases |ops|
  {
    ops != [] ==>
      && (ops[0].OpLogin? ==> !StaleHost(t, Some(host), ops[0].hash))
      && NoStaleLogin(Step(t, host, limit, ops[0]), host, limit, ops[1..])
  }

  lemma StepKeepsLimit(t: Table, host: int, limit: int, op: Op)
    requires 0 <= limit && CountClients(t) <= limit
    requires op.OpLogin? ==> !StaleHost(t, Some(host), op.hash)
    ensures CountClients(Step(t, host, limit, op)) <= limit
  {
    match op
    case OpLogin(hash, licensed) =>
      if LoginCheck(t, Some(host), hash, licensed, limit).Ok? {
        assert LoginCheck(t, Some(host), hash, true, limit) == LoginCheck(t, Some(host), hash, licensed, limit);
        LoginKeepsLimitIff(t, Some(host), hash, limit);
      }
    case OpRevoke(hash) => OnlyDeletingFreesSlots(t, Some(host), hash);
    case OpDelete(hash) => OnlyDeletingFreesSlots(t, Some(host), hash);
    case OpStartHost =>
      CountAfter(t, host, Device(Host, Active));
      if host !in Clients(t) {
        assert Clients(t) - {host} == Clients(t);
      }
  }

  /** No run of logins, revocations and deletions ever holds more clients than the licence allows. */
  lemma {:induction false} RunKeepsLimit(t: Table, host: int, limit: int, ops: seq<Op>)
    requires 0 <= limit && CountClients(t) <= limit && NoStaleLogin(t, host, limit, ops)
    ensures CountClients(Run(t, host, limit, ops)) <= limit
    decreases |ops|
  {
    if ops != [] {
      hide CountClients, Step, StaleHost;
      StepKeepsLimit(t, host, limit, ops[0]);
      RunKeepsLimit(Step(t, host, limit, ops[0]), host, limit, ops[1..]);
    }
  }

  lemma RunThree(t: Table, host: int, limit: int, op0: Op, op1: Op, op2: Op)
    ensures Run(t, host, limit, [op0, op1, op2]) == Step(Step(Step(t, host, limit, op0), host, limit, op1), host, limit, op2)
  {
    hide Step;
    var ops := [op0, op1, op2];
    var t1 := Step(t, host, limit, op0);
    var t2 := Step(t1, host, limit, op1);
    assert ops[1..] == [op1, op2] && ops[1..][1..] == [op2] && [op2][1..] == [];
    assert Run(t, host, limit, ops) == Run(t1, host, limit, ops[1..]);
    assert Run(t1, host, limit, ops[1..]) == Run(t2, host, limit, [op2]);
    assert Run(t2, host, limit, [op2]) == Run(Step(t2, host, limit, op2), host, limit, []);
  }

  lemma StartRegisters(host: int, limit: int)
    ensures Run(map[], host, limit, [OpStartHost]) == map[host := Device(Host, Active)]
  {
    assert [OpStartHost][1..] == [];
    var empty: Table := map[];
    assert SaveSeen(empty, host, Host) == empty[host := Device(Host, Active)];
  }

  /** The program moves to another machine: the new host starts, a client logs in and takes the one licensed slot,
      and a login from the old host's machine is then admitted as a second client. */
  lemma StaleHostExceedsLimit(former: int, host: int, client: int)
    requires former != host && client != former && client != host
    ensures var moved := Run(map[], former, 1, [OpStartHost]);
      && CountClients(moved) == 0
      && CountClients(Run(moved, host, 1, [OpStartHost, OpLogin(client, true), OpLogin(former, true)])) == 2
  {
    var t0: Table := map[former := Device(Host, Active)];
    StartRegisters(former, 1);
    MovedCounts(former, host, client);
    MovedSteps(former, host, client);
    hide CountClients, Step, Run;
    RunThree(t0, host, 1, OpStartHost, OpLogin(client, true), OpLogin(former, true));
  }

  lemma MovedCounts(former: int, host: int, client: int)
    requires former != host && client != former && client != host
    ensures var t0: Table := map[former := Device(Host, Active)];
      var t1 := t0[host := Device(Host, Active)];
      var t2 := t1[client := Device(Client, Active)];
      CountClients(t0) == CountClients(t1) == 0 && CountClients(t2[former := Device(Client, Active)]) == 2
  {
    var t0: Table := map[former := Device(Host, Active)];
    var t1 := t0[host := Device(Host, Active)];
    var t2 := t1[client := Device(Client, Active)];
    var empty: Table := map[];
    assert empty[former := Device(Host, Active)] == t0;
    hide CountClients;
    assert CountClients(empty) == 0 by { EmptyCount(); }
    CountWritten(empty, former, Device(Host, Active));
    CountWritten(t0, host, Device(Host, Active));
    CountWritten(t1, client, Device(Client, Active));
    CountWritten(t2, former, Device(Client, Active));
  }

  lemma EmptyCount()
    ensures CountClients(map[]) == 0
  {
    assert Clients(map[]) == {};
  }

  lemma MovedSteps(former: int, host: int, client: int)
    requires former != host && client != former && client != host
    ensures var t0: Table := map[former := Device(Host, Active)];
      var t1 := t0[host := Device(Host, Active)];
      var t2 := t1[client := Device(Client, Active)];
      && Step(t0, host, 1, OpStartHost) == t1
      && Step(t1, host, 1, OpLogin(client, true)) == t2
      && Step(t2, host, 1, OpLogin(former, true)) == t2[former := Device(Client, Active)]
  {
    MovedCounts(former, host, client);
    hide CountClients;
  }

  /** A host that was registered and is active stays an active host row, whatever the run does. */
  lemma {:induction false} HostSurvives(t: Table, host: int, limit: int, ops: seq<Op>)
    requires host in t && t[host] == Device(Host, Active)
    ensures var end := Run(t, host, limit, ops); host in end && end[host] == Device(Host, Active)
    decreases |ops|
  {
    if ops != [] {
      HostSurvives(Step(t, host, limit, ops[0]), host, limit, ops[1..]);
    }
  }

  // ---- The table as the server changes it ----

  class DeviceTable {
    var devices: Table

    constructor ()
      ensures devices == map[]
    {
      devices := map[];
    }

    /** Update the row if there is one; if that changed nothing, insert it. */
    method SaveDeviceSeen(hash: int, kind: Kind)
      modifies this
      ensures devices == SaveSeen(old(devices), hash, kind)
    {
      if hash in devices {
        if kind.Host? {
          devices := devices[hash := Device(kind, Active)];
        } else {
          devices := devices[hash := devices[hash].(kind := kind)];
        }
      }
      if hash !in devices {
        devices := devices[hash := Device(kind, Active)];
      }
    }

    method RegisterClientDevice(hash: int, limit: int) returns (refused: Option<Refusal>)
      modifies this
      ensures match RegisterClient(old(devices), hash, limit)
        case Ok(t) => refused == None && devices == t
        case Refused(why) => refused == Some(why) && devices == old(devices)
    {
      if hash in devices {
        if devices[hash].status.Revoked? {
          return Some(IsRevoked);
        }
      } else {
        var used := CountClients(devices);
        if limit >= 0 && used >= limit {
          return Some(LimitReached);
        }
      }
      SaveDeviceSeen(hash, Client);
      refused := None;
    }

    method CheckLogin(host: Option<int>, hash: int, licensed: bool, limit: int) returns (refused: Option<Refusal>)
      modifies this
      ensures match LoginCheck(old(devices), host, hash, licensed, limit)
        case Ok(t) => refused == None && devices == t
        case Refused(why) => refused == Some(why) && devices == old(devices)
    {
      if hash in devices && devices[hash].status.Revoked? {
        return Some(IsRevoked);
      }
      if host == Some(hash) {
        SaveDeviceSeen(hash, Host);
        return None;
      }
      if !licensed {
        return Some(NoLicense);
      }
      refused := RegisterClientDevice(hash, limit);
    }

    /** UPDATE devices SET status = revoked: not found when no row matches. */
    method MarkRevoked(hash: int) returns (found: bool)
      modifies this
      ensures found <==> hash in old(devices)
      ensures devices == if found then old(devices)[hash := old(devices)[hash].(status := Revoked)] else old(devices)
    {
      found := hash in devices;
      if found {
        devices := devices[hash := devices[hash].(status := Revoked)];
      }
    }

    method DeleteRow(hash: int) returns (found: bool)
      modifies this
      ensures found <==> hash in old(devices)
      ensures devices == old(devices) - {hash}
    {
      found := hash in devices;
      devices := devices - {hash};
    }
  }
}

/**
 * Admission to a (room, address) under the ownership lock, interleaved with everything else that touches the
 * registrations: the two admission paths of backend/socket.io/multiplexed.ts and listeners.ts, cut at their
 * awaits.
 */
module RoomAdmission {
  import opened Common
  import opened RoomLock
  import opened RoomOwnership

  const CAPACITY: nat := 2
  const MAX_ROOM_SUBSCRIPTIONS: nat := 128

  datatype Transport = Legacy | Mux

  datatype Verdict = Active | Inactive | Unavailable

  /** `cleared` records the owners found active, with the device the contender and the owner had in common. */
  datatype Stage = Queued | Entered | Checking(todo: seq<Sid>, cleared: map<Sid, Device>) | Ready(cleared: map<Sid, Device>)

  datatype Admission = Admission(key: Key, contender: Sid, transport: Transport, stage: Stage)

  datatype System = System(reg: Registry, locks: Locks, admissions: map<nat, Admission>)

  datatype Event =
    // the two admission paths
    | Request(x: Sid, key: Key, transport: Transport)
    | TakeLock(op: nat)
    | Snapshot(op: nat)
    | CheckOwner(op: nat, verdict: Verdict)
    | Prepare(op: nat)
    | Install(op: nat, expiresAt: int)
    | Refuse(op: nat)
    // the environment
    | Tick(elapsed: nat)
    | Connect(x: Sid)
    | BindDevice(x: Sid, device: Device)
    | Authenticate(x: Sid)
    | ConnectionLost(x: Sid)
    | OnDisconnect(x: Sid)
    | LeaseTimer(x: Sid, room: string, sub: Subscription)
    | Unsubscribe(x: Sid, room: string)
    | FoundInactive(x: Sid, transport: Transport)
    | Lookup(key: Key)
    | Revoke(account: string, id: string)

  /** The event belongs to an admission in progress. */
  predicate Admitting(e: Event)
  {
    e.TakeLock? || e.Snapshot? || e.CheckOwner? || e.Prepare? || e.Install? || e.Refuse?
  }

  predicate SameDevice(r: Registry, x: Sid, y: Sid)
  {
    x in r.sockets && y in r.sockets && r.sockets[x].device.Some? && r.sockets[x].device == r.sockets[y].device
  }

  /** Ends the operation: out of the table, and the lock passes on. */
  function Leave(s: System, op: nat): (t: System)
    requires op < |s.locks.operations|
  {
    s.(locks := Release(s.locks, op), admissions := s.admissions - {op})
  }

  function At(s: System, op: nat, stage: Stage): (t: System)
    requires op in s.admissions
  {
    s.(admissions := s.admissions[op := s.admissions[op].(stage := stage)])
  }

  function Owners(legacy: Option<Sid>, mux: Option<Sid>, transport: Transport): (todo: seq<Sid>)
  {
    var l := if legacy.Some? then [legacy.value] else [];
    var m := if mux.Some? then [mux.value] else [];
    if legacy == mux then l else if transport == Mux then l + m else m + l
  }

  /** The two lookups touch different tables, so their order, which differs between the paths, does not matter. */
  function DoSnapshot(s: System, op: nat): (t: System)
    requires op in s.admissions
  {
    var a := s.admissions[op];
    var (legacy, r1) := LegacyOwner(s.reg, a.key);
    var (mux, r2) := MuxOwner(r1, a.key);
    At(s, op, Checking(Owners(legacy, mux, a.transport), map[])).(reg := r2)
  }

  /** An owner whose device is inactive loses the key, and its connection unless it was a mux owner already dropped. */
  function Evict(r: Registry, key: Key, owner: Sid): (n: Registry)
  {
    var wasMuxOwner := owner in r.sockets && r.sockets[owner].subs != map[];
    var (mux, r1) := MuxOwner(r, key);
    var r2 := if mux == Some(owner) then Invalidate(r1, owner) else r1;
    var r3 := DeleteClient(r2, key, owner);
    if wasMuxOwner then r3 else Disconnect(r3, owner)
  }

  function DoCheck(s: System, op: nat, verdict: Verdict): (t: System)
    requires op in s.admissions && op < |s.locks.operations|
    requires s.admissions[op].stage.Checking? && s.admissions[op].stage.todo != []
  {
    var a := s.admissions[op];
    var owner := a.stage.todo[0];
    var rest := Checking(a.stage.todo[1..], a.stage.cleared);
    if owner == a.contender then At(s, op, rest)
    else match verdict
      case Unavailable => Leave(s, op)
      case Inactive => At(s, op, rest).(reg := Evict(s.reg, a.key, owner))
      case Active =>
        if SameDevice(s.reg, owner, a.contender)
        then At(s, op, rest.(cleared := a.stage.cleared[owner := s.reg.sockets[owner].device.value]))
        else Leave(s, op)
  }

  /** The last checks before the contender's own device is read once more. */
  predicate MayPrepare(r: Registry, a: Admission)
  {
    match a.transport
    case Legacy => !WouldExceed(r, a.key, CAPACITY)
    case Mux => IsCurrent(r, a.contender) && r.sockets[a.contender].connected
  }

  predicate MayInstall(r: Registry, a: Admission)
  {
    && a.contender in r.sockets
    && (a.transport == Mux ==>
          && !WouldExceed(r, a.key, CAPACITY)
          && (a.key.room in r.sockets[a.contender].subs || |r.sockets[a.contender].subs| < MAX_ROOM_SUBSCRIPTIONS))
  }

  function Installed(r: Registry, a: Admission, expiresAt: int): (n: Registry)
    requires a.contender in r.sockets
  {
    match a.transport
    case Legacy => InstallLegacy(r, a.key, a.contender)
    case Mux => InstallMux(r, a.key, a.contender, expiresAt)
  }

  predicate InStage(s: System, op: nat)
  {
    op in s.admissions && op < |s.locks.operations|
  }

  function Admit(s: System, e: Event): (t: Option<System>)
    requires Admitting(e)
  {
    if !InStage(s, e.op) then None
    else
      var a := s.admissions[e.op];
      match e
      case TakeLock(op) =>
        if a.stage.Queued? && MayEnter(s.locks, op) then Some(At(s, op, Entered).(locks := Enter(s.locks, op))) else None
      case Snapshot(op) => if a.stage.Entered? then Some(DoSnapshot(s, op)) else None
      case CheckOwner(op, verdict) =>
        if a.stage.Checking? && a.stage.todo != [] then Some(DoCheck(s, op, verdict)) else None
      case Prepare(op) =>
        if a.stage.Checking? && a.stage.todo == [] then
          if MayPrepare(s.reg, a) then Some(At(s, op, Ready(a.stage.cleared))) else Some(Leave(s, op))
        else None
      case Install(op, expiresAt) =>
        if a.stage.Ready? then
          if MayInstall(s.reg, a) then Some(Leave(s.(reg := Installed(s.reg, a, expiresAt)), op)) else Some(Leave(s, op))
        else None
      case Refuse(op) => if !a.stage.Queued? then Some(Leave(s, op)) else None
  }

  /** A legacy connection found inactive gives up its client entry and its connection. */
  function DropLegacy(r: Registry, x: Sid): (n: Registry)
  {
    if x in r.sockets then
      Disconnect(if r.sockets[x].user.Some? then DeleteClient(r, r.sockets[x].user.value, x) else r, x)
    else r
  }

  function Hangup(r: Registry, x: Sid): (n: Registry)
  {
    DropDevice(RemoveAll(DropLegacy(r, x), x), x)
  }

  /** A device keeps its account and id for good; only the epoch may be bound anew. */
  function Bound(r: Registry, x: Sid, device: Device): (n: Registry)
    requires x in r.sockets
  {
    if r.sockets[x].device.None? || (r.sockets[x].device.value.account == device.account && r.sockets[x].device.value.id == device.id)
    then r.(sockets := r.sockets[x := r.sockets[x].(device := Some(device))]) else r
  }

  function TakeDevice(r: Registry, x: Sid): (n: Registry)
    requires x in r.sockets && r.sockets[x].device.Some?
  {
    var name := (r.sockets[x].device.value.account, r.sockets[x].device.value.id);
    var taken := r.(devices := r.devices[name := x]);
    if name in r.devices && r.devices[name] != x then Disconnect(taken, r.devices[name]) else taken
  }

  function Around(r: Registry, e: Event): (n: Option<Registry>)
    requires !Admitting(e) && !e.Request?
  {
    match e
    case Tick(elapsed) => Some(r.(clock := r.clock + elapsed))
    case Connect(x) => if x in r.sockets then None else Some(r.(sockets := r.sockets[x := Socket(true, None, None, map[])]))
    case BindDevice(x, device) => if x in r.sockets then Some(Bound(r, x, device)) else None
    case Authenticate(x) => if x in r.sockets && r.sockets[x].device.Some? then Some(TakeDevice(r, x)) else None
    case ConnectionLost(x) => Some(Disconnect(r, x))
    case OnDisconnect(x) => if x in r.sockets && !r.sockets[x].connected then Some(Hangup(r, x)) else None
    case LeaseTimer(x, room, sub) => if sub.expiresAt <= r.clock then Some(RemoveSubscription(r, x, room, sub)) else None
    case Unsubscribe(x, room) => Some(ReleaseRoom(r, x, room))
    case FoundInactive(x, transport) => Some(if transport == Mux then Invalidate(r, x) else DropLegacy(r, x))
    case Lookup(key) => Some(MuxOwner(LegacyOwner(r, key).1, key).1)
    case Revoke(account, id) =>
      if (account, id) in r.devices then
        var x := r.devices[(account, id)];
        Some(Invalidate(r.(devices := r.devices - {(account, id)}), x))
      else Some(r)
  }

  function Next(s: System, e: Event): (t: Option<System>)
  {
    if Admitting(e) then Admit(s, e)
    else if e.Request? then
      if e.x !in s.reg.sockets then None
      else
        var op := |s.locks.operations|;
        Some(s.(locks := Arrive(s.locks, e.key), admissions := s.admissions[op := Admission(e.key, e.x, e.transport, Queued)]))
    else match Around(s.reg, e)
      case None => None
      case Some(n) => Some(s.(reg := n))
  }

  function Init(clock: int): (s: System)
  {
    System(Registry(clock, map[], map[], map[], map[], 0), Locks(map[], []), map[])
  }

  function Run(clock: int, events: seq<Event>): (s: Option<System>)
  {
    if events == [] then Some(Init(clock))
    else match Run(clock, events[..|events| - 1])
      case None => None
      case Some(s) => Next(s, events[|events| - 1])
  }
}

/** What holds over every run of the admission paths and everything around them. */
module RoomRuns {
  import opened Common
  import opened RoomLock
  import opened RoomOwnership
  import opened RoomAdmission

  predicate Identified(r: Registry, x: Sid, d: Device)
  {
    && x in r.sockets && r.sockets[x].device.Some?
    && r.sockets[x].device.value.account == d.account && r.sockets[x].device.value.id == d.id
  }

  /** Whoever holds the key is the contender, still to be checked, or cleared as the same device. */
  predicate Known(r: Registry, a: Admission, todo: seq<Sid>, cleared: map<Sid, Device>)
  {
    && (a.key in r.legacy ==> r.legacy[a.key] == a.contender || r.legacy[a.key] in todo || r.legacy[a.key] in cleared)
    && (a.key in r.mux ==> r.mux[a.key] == a.contender || r.mux[a.key] in todo || r.mux[a.key] in cleared)
    && (forall x | x in cleared :: Identified(r, x, cleared[x]) && Identified(r, a.contender, cleared[x]))
  }

  predicate OwnersKnown(r: Registry, a: Admission)
  {
    && a.contender in r.sockets
    && match a.stage
      case Checking(todo, cleared) => Known(r, a, todo, cleared)
      case Ready(cleared) => Known(r, a, [], cleared)
      case _ => true
  }

  predicate Staged(s: System, op: nat)
    requires op in s.admissions
  {
    && op < |s.locks.operations|
    && s.locks.operations[op].key == s.admissions[op].key
    && s.locks.operations[op].phase == if s.admissions[op].stage.Queued? then Waiting else Inside
  }

  ghost predicate Inv(s: System)
  {
    && Sound(s.reg) && LocksOk(s.locks)
    && (forall op | op in s.admissions :: Staged(s, op))
    && (forall op | op in s.admissions :: OwnersKnown(s.reg, s.admissions[op]))
  }

  // ---------- registry steps only take away ----------

  lemma DropLegacySound(r: Registry, x: Sid)
    requires Sound(r)
    ensures Sound(DropLegacy(r, x)) && Shrinks(r, DropLegacy(r, x))
  {
    hide Sound, Shrinks, DeleteClient, Disconnect;
    ShrinksSelf(r);
    if x in r.sockets {
      var d := if r.sockets[x].user.Some? then DeleteClient(r, r.sockets[x].user.value, x) else r;
      if r.sockets[x].user.Some? { DeleteClientSound(r, r.sockets[x].user.value, x); }
      DisconnectSound(d, x);
      ShrinksTwice(r, d, Disconnect(d, x));
    }
  }

  lemma HangupSound(r: Registry, x: Sid)
    requires Sound(r)
    ensures Sound(Hangup(r, x)) && Shrinks(r, Hangup(r, x))
  {
    hide Sound, Shrinks, DropLegacy, RemoveAll, DropDevice;
    DropLegacySound(r, x);
    RemoveAllSound(DropLegacy(r, x), x);
    DropDeviceSound(RemoveAll(DropLegacy(r, x), x), x);
    ShrinksTwice(r, DropLegacy(r, x), RemoveAll(DropLegacy(r, x), x));
    ShrinksTwice(r, RemoveAll(DropLegacy(r, x), x), Hangup(r, x));
  }

  lemma LookupSound(r: Registry, key: Key)
    requires Sound(r)
    ensures var n := MuxOwner(LegacyOwner(r, key).1, key).1; Sound(n) && Shrinks(r, n)
  {
    hide Sound, Shrinks, LegacyOwner, MuxOwner;
    LegacyOwnerSound(r, key);
    MuxOwnerSound(LegacyOwner(r, key).1, key);
    ShrinksTwice(r, LegacyOwner(r, key).1, MuxOwner(LegacyOwner(r, key).1, key).1);
  }

  lemma TakeDeviceSound(r: Registry, x: Sid)
    requires Sound(r) && x in r.sockets && r.sockets[x].device.Some?
    ensures Sound(TakeDevice(r, x)) && Shrinks(r, TakeDevice(r, x))
  {
    hide Disconnect;
    var name := (r.sockets[x].device.value.account, r.sockets[x].device.value.id);
    var taken := r.(devices := r.devices[name := x]);
    assert Sound(taken) && Shrinks(r, taken);
    if name in r.devices {
      hide Sound, Shrinks;
      DisconnectSound(taken, r.devices[name]);
      ShrinksTwice(r, taken, Disconnect(taken, r.devices[name]));
    }
  }

  lemma BoundSound(r: Registry, x: Sid, device: Device)
    requires Sound(r) && x in r.sockets
    ensures Sound(Bound(r, x, device)) && Shrinks(r, Bound(r, x, device))
  {
    hide Sound;
    SameSubsSound(r, Bound(r, x, device));
  }

  lemma ConnectSound(r: Registry, x: Sid)
    requires Sound(r) && x !in r.sockets
    ensures var n := r.(sockets := r.sockets[x := Socket(true, None, None, map[])]); Sound(n) && Shrinks(r, n)
  {
  }

  lemma RevokeSound(r: Registry, name: (string, string))
    requires Sound(r)
    ensures Sound(r.(devices := r.devices - {name})) && Shrinks(r, r.(devices := r.devices - {name}))
  {
  }

  lemma TickSound(r: Registry, elapsed: nat)
    requires Sound(r)
    ensures Sound(r.(clock := r.clock + elapsed)) && Shrinks(r, r.(clock := r.clock + elapsed))
  {
  }

  lemma AroundSound(r: Registry, e: Event)
    requires Sound(r) && !Admitting(e) && !e.Request? && Around(r, e).Some?
    ensures Sound(Around(r, e).value) && Shrinks(r, Around(r, e).value)
  {
    hide Sound, Shrinks, RemoveSubscription, ReleaseRoom, Invalidate, DropLegacy, Hangup, Bound, TakeDevice, Disconnect, LegacyOwner, MuxOwner;
    match e {
      case Tick(elapsed) => TickSound(r, elapsed);
      case Connect(x) => ConnectSound(r, x);
      case BindDevice(x, device) => BoundSound(r, x, device);
      case Authenticate(x) => TakeDeviceSound(r, x);
      case ConnectionLost(x) => DisconnectSound(r, x);
      case OnDisconnect(x) => HangupSound(r, x);
      case LeaseTimer(x, room, sub) => RemoveSubscriptionSound(r, x, room, sub);
      case Unsubscribe(x, room) => ReleaseRoomSound(r, x, room);
      case FoundInactive(x, transport) => InvalidateSound(r, x); DropLegacySound(r, x);
      case Lookup(key) => LookupSound(r, key);
      case Revoke(account, id) =>
        ShrinksSelf(r);
        if (account, id) in r.devices {
          var d := r.(devices := r.devices - {(account, id)});
          RevokeSound(r, (account, id));
          InvalidateSound(d, r.devices[(account, id)]);
          ShrinksTwice(r, d, Invalidate(d, r.devices[(account, id)]));
        }
    }
  }

  lemma EvictSound(r: Registry, key: Key, owner: Sid)
    requires Sound(r)
    ensures var n := Evict(r, key, owner);
      && Sound(n) && Shrinks(r, n)
      && (key in n.legacy ==> n.legacy[key] != owner) && (key in n.mux ==> n.mux[key] != owner)
  {
    hide Sound, Shrinks, MuxOwner, Invalidate, DeleteClient, Disconnect;
    var (mux, r1) := MuxOwner(r, key);
    MuxOwnerSound(r, key);
    var r2 := if mux == Some(owner) then Invalidate(r1, owner) else r1;
    InvalidateSound(r1, owner);
    ShrinksSelf(r1);
    ShrinksTwice(r, r1, r2);
    DeleteClientSound(r2, key, owner);
    ShrinksTwice(r, r2, DeleteClient(r2, key, owner));
    DisconnectSound(DeleteClient(r2, key, owner), owner);
    ShrinksTwice(r, DeleteClient(r2, key, owner), Disconnect(DeleteClient(r2, key, owner), owner));
    EvictGone(r1, r2, key, owner);
  }

  lemma EvictGone(r1: Registry, r2: Registry, key: Key, owner: Sid)
    requires Shrinks(r1, r2) && (key in r1.mux && r1.mux[key] == owner ==> key !in r2.mux)
    ensures var n := DeleteClient(r2, key, owner);
      && (key in n.legacy ==> n.legacy[key] != owner) && (key in n.mux ==> n.mux[key] != owner)
  {
  }

  // ---------- the owners stay known ----------

  lemma KnownStays(r: Registry, n: Registry, a: Admission)
    requires OwnersKnown(r, a) && Shrinks(r, n)
    ensures OwnersKnown(n, a)
  {
  }

  lemma KnownStaysElsewhere(r: Registry, n: Registry, a: Admission, key: Key)
    requires OwnersKnown(r, a) && ShrinksBut(r, n, key) && a.key != key
    ensures OwnersKnown(n, a)
  {
  }

  lemma QuietKeeps(s: System, n: Registry)
    requires Inv(s) && Sound(n) && Shrinks(s.reg, n)
    ensures Inv(s.(reg := n))
  {
    hide Sound, Shrinks, LocksOk, OwnersKnown;
    forall op | op in s.admissions ensures OwnersKnown(n, s.admissions[op]) { KnownStays(s.reg, n, s.admissions[op]); }
    var t := s.(reg := n);
    forall op | op in t.admissions ensures Staged(t, op) { assert Staged(s, op); }
  }

  lemma LeaveKeeps(s: System, op: nat)
    requires Inv(s) && op in s.admissions && !s.admissions[op].stage.Queued?
    ensures Inv(Leave(s, op))
  {
    hide Sound, OwnersKnown, LocksOk;
    assert Staged(s, op);
    ReleaseKeeps(s.locks, op);
    var t := Leave(s, op);
    forall o | o in t.admissions ensures Staged(t, o) && OwnersKnown(t.reg, t.admissions[o]) { assert Staged(s, o); }
  }

  lemma AtKeeps(s: System, op: nat, stage: Stage)
    requires Inv(s) && op in s.admissions && !s.admissions[op].stage.Queued? && !stage.Queued?
    requires OwnersKnown(s.reg, s.admissions[op].(stage := stage))
    ensures Inv(At(s, op, stage))
  {
    hide Sound, OwnersKnown, LocksOk;
    var t := At(s, op, stage);
    forall o | o in t.admissions ensures Staged(t, o) && OwnersKnown(t.reg, t.admissions[o]) { assert Staged(s, o); }
  }

  lemma RequestKeeps(s: System, e: Event)
    requires Inv(s) && e.Request? && Next(s, e).Some?
    ensures Inv(Next(s, e).value)
  {
    hide Sound, LocksOk, Known;
    ArriveKeeps(s.locks, e.key);
    var t := Next(s, e).value;
    forall o | o in t.admissions ensures Staged(t, o) && OwnersKnown(t.reg, t.admissions[o]) {
      if o in s.admissions { assert Staged(s, o) && OwnersKnown(s.reg, s.admissions[o]); }
    }
  }

  lemma TakeLockKeeps(s: System, op: nat)
    requires Inv(s) && op in s.admissions && s.admissions[op].stage.Queued? && MayEnter(s.locks, op)
    ensures Inv(At(s, op, Entered).(locks := Enter(s.locks, op)))
  {
    hide Sound, LocksOk, Known;
    EnterKeeps(s.locks, op);
    var t := At(s, op, Entered).(locks := Enter(s.locks, op));
    forall o | o in t.admissions ensures Staged(t, o) && OwnersKnown(t.reg, t.admissions[o]) {
      assert Staged(s, o) && OwnersKnown(s.reg, s.admissions[o]);
    }
  }

  lemma SnapshotKeeps(s: System, op: nat)
    requires Inv(s) && op in s.admissions && s.admissions[op].stage.Entered?
    ensures Inv(DoSnapshot(s, op))
  {
    hide Sound, LegacyOwner, MuxOwner, Staged, LocksOk;
    var a := s.admissions[op];
    var (legacy, r1) := LegacyOwner(s.reg, a.key);
    LegacyOwnerSound(s.reg, a.key);
    var (mux, r2) := MuxOwner(r1, a.key);
    MuxOwnerSound(r1, a.key);
    assert Shrinks(s.reg, r2) by { ShrinksTwice(s.reg, r1, r2); }
    QuietKeeps(s, r2);
    AtKeeps(s.(reg := r2), op, Checking(Owners(legacy, mux, a.transport), map[]));
  }

  lemma CheckKeeps(s: System, op: nat, verdict: Verdict)
    requires Inv(s) && op in s.admissions && op < |s.locks.operations|
    requires s.admissions[op].stage.Checking? && s.admissions[op].stage.todo != []
    ensures Inv(DoCheck(s, op, verdict))
  {
    hide Sound, Shrinks, Evict, Leave, Staged, LocksOk;
    var a := s.admissions[op];
    var todo, cleared := a.stage.todo, a.stage.cleared;
    var owner := todo[0];
    assert OwnersKnown(s.reg, a);
    assert todo == [owner] + todo[1..];
    LeaveKeeps(s, op);
    if owner == a.contender {
      AtKeeps(s, op, Checking(todo[1..], cleared));
    } else if verdict == Inactive {
      var n := Evict(s.reg, a.key, owner);
      EvictSound(s.reg, a.key, owner);
      QuietKeeps(s, n);
      assert OwnersKnown(n, a);
      AtKeeps(s.(reg := n), op, Checking(todo[1..], cleared));
    } else if verdict == Active && SameDevice(s.reg, owner, a.contender) {
      AtKeeps(s, op, Checking(todo[1..], cleared[owner := s.reg.sockets[owner].device.value]));
    }
  }

  lemma InstallKeeps(s: System, op: nat, expiresAt: int)
    requires Inv(s) && op in s.admissions && op < |s.locks.operations| && s.admissions[op].stage.Ready?
    requires s.admissions[op].contender in s.reg.sockets
    ensures Inv(Leave(s.(reg := Installed(s.reg, s.admissions[op], expiresAt)), op))
  {
    hide Sound, ShrinksBut, OwnersKnown, InstallMux, InstallLegacy, LocksOk;
    var a := s.admissions[op];
    var n := Installed(s.reg, a, expiresAt);
    InstallMuxSound(s.reg, a.key, a.contender, expiresAt);
    InstallLegacySound(s.reg, a.key, a.contender);
    assert Staged(s, op);
    ReleaseKeeps(s.locks, op);
    var t := Leave(s.(reg := n), op);
    forall o | o in t.admissions ensures Staged(t, o) && OwnersKnown(t.reg, t.admissions[o]) {
      assert Staged(s, o) && OwnersKnown(s.reg, s.admissions[o]);
      if s.admissions[o].key == a.key {
        if !s.admissions[o].stage.Queued? { OneInside(s.locks, o, op); }
        QueuedIsKnown(s.reg, n, s.admissions[o], a.key);
      } else {
        KnownStaysElsewhere(s.reg, n, s.admissions[o], a.key);
      }
    }
  }

  lemma QueuedIsKnown(r: Registry, n: Registry, a: Admission, key: Key)
    requires OwnersKnown(r, a) && ShrinksBut(r, n, key) && a.stage.Queued?
    ensures OwnersKnown(n, a)
  {
  }

  lemma InvNext(s: System, e: Event)
    requires Inv(s) && Next(s, e).Some?
    ensures Inv(Next(s, e).value)
  {
    if e.Request? { RequestKeeps(s, e); return; }
    hide Sound, LocksOk, Staged, Known, DoSnapshot, DoCheck, Installed, Leave, Around, LocksOk;
    if !Admitting(e) {
      hide Inv;
      AroundKeeps(s, e);
    } else {
      AdmitKeeps(s, e);
    }
  }

  lemma AroundKeeps(s: System, e: Event)
    requires Inv(s) && !Admitting(e) && !e.Request? && Around(s.reg, e).Some?
    ensures Inv(s.(reg := Around(s.reg, e).value))
  {
    hide Around, Sound, Shrinks;
    AroundSound(s.reg, e);
    QuietKeeps(s, Around(s.reg, e).value);
  }

  lemma AdmitKeeps(s: System, e: Event)
    requires Inv(s) && Admitting(e) && Admit(s, e).Some?
    ensures Inv(Admit(s, e).value)
  {
    hide Sound, LocksOk, Staged, DoSnapshot, DoCheck, Installed, Leave;
    var a := s.admissions[e.op];
    assert OwnersKnown(s.reg, a);
    match e {
      case TakeLock(op) => TakeLockKeeps(s, op);
      case Snapshot(op) => SnapshotKeeps(s, op);
      case CheckOwner(op, verdict) => CheckKeeps(s, op, verdict);
      case Prepare(op) => if MayPrepare(s.reg, a) { AtKeeps(s, op, Ready(a.stage.cleared)); } else { LeaveKeeps(s, op); }
      case Install(op, expiresAt) => if MayInstall(s.reg, a) { InstallKeeps(s, op, expiresAt); } else { LeaveKeeps(s, op); }
      case Refuse(op) => LeaveKeeps(s, op);
    }
  }

  lemma {:induction false} InvRun(clock: int, events: seq<Event>)
    requires Run(clock, events).Some?
    ensures Inv(Run(clock, events).value)
  {
    hide Next;
    if events != [] {
      InvRun(clock, events[..|events| - 1]);
      InvNext(Run(clock, events[..|events| - 1]).value, events[|events| - 1]);
    }
  }

  // ---------- what runs keep ----------

  /** In no reachable state is a (room, address) registered on both transports. */
  lemma NeverBothTransports(clock: int, events: seq<Event>, key: Key)
    requires Run(clock, events).Some?
    ensures var r := Run(clock, events).value.reg; !(key in r.legacy && key in r.mux)
  {
    hide Next;
    InvRun(clock, events);
  }

  /** In every reachable state the room map and the subscription maps of the sockets are inverse to each other. */
  lemma MapsAreInverse(clock: int, events: seq<Event>, x: Sid, key: Key)
    requires Run(clock, events).Some?
    ensures var r := Run(clock, events).value.reg;
      (key in r.mux && r.mux[key] == x) <==> (x in r.sockets && Subscribed(r.sockets[x], key))
  {
    hide Next;
    InvRun(clock, events);
  }

  /** At most one admission per key is past the lock, and everyone who asked before it has finished. */
  lemma OneAdmissionAtATime(clock: int, events: seq<Event>, i: nat, j: nat)
    requires Run(clock, events).Some?
    requires var s := Run(clock, events).value;
      && i in s.admissions && j in s.admissions && s.admissions[i].key == s.admissions[j].key
      && !s.admissions[i].stage.Queued? && j <= i
    ensures i == j
  {
    hide Next;
    InvRun(clock, events);
    var s := Run(clock, events).value;
    assert Staged(s, i) && Staged(s, j) && TurnOk(s.locks, i);
  }

  /** Registrations elsewhere and of others survive. */
  predicate Spares(r: Registry, n: Registry, key: Key, x: Sid)
  {
    && (forall k | k in r.legacy && k != key && r.legacy[k] != x :: k in n.legacy && n.legacy[k] == r.legacy[k])
    && (forall k | k in r.mux && k != key && r.mux[k] != x :: k in n.mux && n.mux[k] == r.mux[k])
  }

  lemma SparesTwice(a: Registry, b: Registry, c: Registry, key: Key, x: Sid)
    requires Spares(a, b, key, x) && Spares(b, c, key, x)
    ensures Spares(a, c, key, x)
  {
  }

  lemma ReleaseSpares(r: Registry, y: Sid, key: Key, x: Sid)
    requires Sound(r) && (y == x || (key in r.mux && r.mux[key] == y))
    ensures Spares(r, ReleaseRoom(r, y, key.room), key, x)
  {
  }

  lemma DeleteSpares(r: Registry, y: Sid, key: Key, x: Sid)
    ensures Spares(r, DeleteClient(r, key, y), key, x)
  {
  }

  lemma LookupsSpare(r: Registry, key: Key, x: Sid)
    requires Sound(r)
    ensures Spares(r, LegacyOwner(r, key).1, key, x) && Spares(r, MuxOwner(r, key).1, key, x)
  {
    hide ReleaseRoom;
    if key in r.mux { ReleaseSpares(r, r.mux[key], key, x); }
  }

  lemma FencesSpare(r: Registry, key: Key, x: Sid)
    requires Sound(r) && x in r.sockets
    ensures Spares(r, FenceForMux(r, key, x), key, x) && Spares(r, FenceForLegacy(r, key), key, x)
  {
    hide Sound, Spares, Shrinks, LegacyOwner, MuxOwner, ReleaseRoom, DeleteClient;
    var (oldLegacy, r1) := LegacyOwner(r, key);
    LegacyOwnerSound(r, key);
    LookupsSpare(r, key, x);
    var (oldMux, r2) := MuxOwner(r1, key);
    MuxOwnerSound(r1, key);
    LookupsSpare(r1, key, x);
    SparesTwice(r, r1, r2, key, x);
    SparesSelf(r, key, x);
    var r3 := if oldLegacy.Some? then DeleteClient(r2, key, oldLegacy.value) else r2;
    if oldLegacy.Some? {
      DeleteClientSound(r2, key, oldLegacy.value);
      DeleteSpares(r2, oldLegacy.value, key, x);
      SparesTwice(r, r2, r3, key, x);
    }
    var r4 := if oldMux.Some? && oldMux.value != x then ReleaseRoom(r3, oldMux.value, key.room) else r3;
    if oldMux.Some? {
      ReleaseSpares(r2, oldMux.value, key, x);
      SparesTwice(r, r2, ReleaseRoom(r2, oldMux.value, key.room), key, x);
      ReleaseSpares(r3, oldMux.value, key, x);
      ReleaseRoomSound(r3, oldMux.value, key.room);
      SparesTwice(r, r3, ReleaseRoom(r3, oldMux.value, key.room), key, x);
    }
    ReleaseSpares(r4, x, key, x);
    SparesTwice(r, r4, ReleaseRoom(r4, x, key.room), key, x);
  }

  lemma SparesSelf(r: Registry, key: Key, x: Sid)
    ensures Spares(r, r, key, x)
  {
  }

  lemma InstalledSpares(r: Registry, a: Admission, expiresAt: int)
    requires Sound(r) && a.contender in r.sockets
    ensures Spares(r, Installed(r, a, expiresAt), a.key, a.contender)
  {
    hide Sound, FenceForMux, FenceForLegacy;
    FencesSpare(r, a.key, a.contender);
  }

  lemma InvalidateSpares(r: Registry, owner: Sid)
    ensures Invalidate(r, owner).legacy == r.legacy
    ensures forall k | k in r.mux && r.mux[k] != owner :: k in Invalidate(r, owner).mux && Invalidate(r, owner).mux[k] == r.mux[k]
  {
    RemoveAllSpares(r, owner);
    hide RemoveAll;
  }

  lemma RemoveAllSpares(r: Registry, owner: Sid)
    ensures RemoveAll(r, owner).legacy == r.legacy
    ensures forall k | k in r.mux && r.mux[k] != owner :: k in RemoveAll(r, owner).mux && RemoveAll(r, owner).mux[k] == r.mux[k]
  {
  }

  lemma EvictSpares(r: Registry, key: Key, owner: Sid, k: Key, x: Sid)
    requires Sound(r) && x != owner
    requires LiveLegacy(r, k, x) || LiveMux(r, k, x)
    ensures var n := Evict(r, key, owner);
      && (LiveLegacy(r, k, x) ==> k in n.legacy && n.legacy[k] == x)
      && (LiveMux(r, k, x) ==> k in n.mux && n.mux[k] == x)
  {
    hide Sound, MuxOwner, LegacyOwner, LiveMux, LiveLegacy, Invalidate, DeleteClient, Disconnect;
    LookupsSpareLive(r, key, k, x);
    LiveIsRegistered(r, k, x);
    var (mux, r1) := MuxOwner(r, key);
    InvalidateSpares(r1, owner);
    DropSpares(if mux == Some(owner) then Invalidate(r1, owner) else r1, key, owner);
  }

  lemma DropSpares(r: Registry, key: Key, owner: Sid)
    ensures var n := DeleteClient(r, key, owner);
      && n.mux == r.mux && Disconnect(n, owner).mux == r.mux && Disconnect(n, owner).legacy == n.legacy
      && (forall k | k in r.legacy && r.legacy[k] != owner :: k in n.legacy && n.legacy[k] == r.legacy[k])
  {
  }

  lemma LiveIsRegistered(r: Registry, k: Key, x: Sid)
    ensures LiveLegacy(r, k, x) ==> k in r.legacy && r.legacy[k] == x
    ensures LiveMux(r, k, x) ==> k in r.mux && r.mux[k] == x
  {
  }

  lemma LookupsSpareLive(r: Registry, key: Key, k: Key, x: Sid)
    requires Sound(r)
    ensures LiveLegacy(r, k, x) ==> k in r.legacy && r.legacy[k] == x
    ensures LiveLegacy(r, k, x) ==> k in LegacyOwner(r, key).1.legacy && LegacyOwner(r, key).1.legacy[k] == x
    ensures LiveMux(r, k, x) ==> k in MuxOwner(r, key).1.mux && MuxOwner(r, key).1.mux[k] == x
    ensures LegacyOwner(r, key).1 == r.(legacy := LegacyOwner(r, key).1.legacy)
    ensures MuxOwner(r, key).1.legacy == r.legacy
  {
    hide ReleaseRoom;
    if key in r.mux {
      ReleaseRoomSound(r, r.mux[key], key.room);
      ReleaseSpares(r, r.mux[key], key, x);
      ReleaseSpares(r, r.mux[key], key, r.mux[key]);
      if k in r.mux && k != key { OtherKeysStay(r, key, k); }
    }
  }

  lemma OtherKeysStay(r: Registry, key: Key, k: Key)
    requires Sound(r) && key in r.mux && k in r.mux && k != key
    ensures k in ReleaseRoom(r, r.mux[key], key.room).mux && ReleaseRoom(r, r.mux[key], key.room).mux[k] == r.mux[k]
  {
  }

  /** A live owner that a step leaves without its registration. */
  predicate Displaced(r: Registry, n: Registry, key: Key, x: Sid)
  {
    || (LiveLegacy(r, key, x) && !(key in n.legacy && n.legacy[key] == x))
    || (LiveMux(r, key, x) && !(key in n.mux && n.mux[key] == x))
  }

  /** Why the step may displace `x`, in terms of what the admission has recorded. */
  predicate Justified(s: System, e: Event, key: Key, x: Sid)
    requires Admitting(e) && e.op in s.admissions
  {
    var a := s.admissions[e.op];
    || FoundInactiveNow(a, e, x)
    || (e.Install? && x == a.contender)
    || (e.Install? && a.stage.Ready? && key == a.key && x in a.stage.cleared
        && Identified(s.reg, x, a.stage.cleared[x]) && Identified(s.reg, a.contender, a.stage.cleared[x]))
  }

  predicate FoundInactiveNow(a: Admission, e: Event, x: Sid)
  {
    e.CheckOwner? && e.verdict == Inactive && a.stage.Checking? && a.stage.todo != [] && x == a.stage.todo[0]
  }

  lemma SnapshotSpares(s: System, op: nat, k: Key, x: Sid)
    requires Sound(s.reg) && op in s.admissions
    ensures !Displaced(s.reg, DoSnapshot(s, op).reg, k, x)
  {
    hide Sound, LegacyOwner, MuxOwner;
    var key := s.admissions[op].key;
    var r1 := LegacyOwner(s.reg, key).1;
    LegacyOwnerSound(s.reg, key);
    LookupsSpareLive(s.reg, key, k, x);
    LookupsSpareLive(r1, key, k, x);
  }

  lemma InstallJustified(s: System, op: nat, expiresAt: int, k: Key, x: Sid)
    requires Inv(s) && op in s.admissions && s.admissions[op].stage.Ready? && MayInstall(s.reg, s.admissions[op])
    requires Displaced(s.reg, Installed(s.reg, s.admissions[op], expiresAt), k, x)
    ensures Justified(s, Install(op, expiresAt), k, x)
  {
    hide Sound, Installed, LocksOk, Staged;
    var a := s.admissions[op];
    assert OwnersKnown(s.reg, a);
    InstalledSpares(s.reg, a, expiresAt);
  }

  lemma StepDisplaces(s: System, e: Event, key: Key, x: Sid)
    requires Inv(s) && Admitting(e) && Next(s, e).Some? && Displaced(s.reg, Next(s, e).value.reg, key, x)
    ensures e.op in s.admissions && Justified(s, e, key, x)
  {
    hide Sound, OwnersKnown, LocksOk, Staged, Installed, Evict, DoSnapshot, LiveLegacy, LiveMux, Identified;
    var a := s.admissions[e.op];
    LiveIsRegistered(s.reg, key, x);
    match e {
      case Snapshot(op) => SnapshotSpares(s, op, key, x);
      case CheckOwner(op, verdict) => if x != a.stage.todo[0] { CheckSpares(s, op, verdict, key, x); }
      case Install(op, expiresAt) => if MayInstall(s.reg, a) { InstallJustified(s, op, expiresAt, key, x); }
      case _ =>
    }
  }

  // ---------- what an admission has recorded really happened ----------

  function Cleared(a: Admission): (cleared: map<Sid, Device>)
  {
    match a.stage
    case Checking(_, cleared) => cleared
    case Ready(cleared) => cleared
    case _ => map[]
  }

  /** The same operation of the same contender on both sides. */
  predicate SameAdmission(a: Admission, b: Admission)
  {
    a.key == b.key && a.contender == b.contender && a.transport == b.transport
  }

  /** With this event the operation finds `x` active, its device, account and epoch being those of the contender. */
  predicate Clears(s: System, e: Event, op: nat, x: Sid)
  {
    && e == CheckOwner(op, Active) && op in s.admissions
    && var a := s.admissions[op];
       a.stage.Checking? && a.stage.todo != [] && a.stage.todo[0] == x && SameDevice(s.reg, x, a.contender)
  }

  lemma ClearedStep(s: System, e: Event, op: nat, x: Sid)
    requires Next(s, e).Some? && op in Next(s, e).value.admissions && x in Cleared(Next(s, e).value.admissions[op])
    ensures op in s.admissions && SameAdmission(s.admissions[op], Next(s, e).value.admissions[op])
    ensures x in Cleared(s.admissions[op]) || Clears(s, e, op, x)
  {
    hide LegacyOwner, MuxOwner, Evict, Installed, Around, MayPrepare, MayInstall, MayEnter, Enter, Release, Arrive, Owners;
  }

  /** Event `k` of the run cleared `x` for the operation, which has stayed open ever since. */
  predicate ClearedAt(clock: int, events: seq<Event>, k: nat, op: nat, x: Sid)
    requires k < |events|
  {
    && Run(clock, events[..k]).Some? && Clears(Run(clock, events[..k]).value, events[k], op, x)
    && forall j | k <= j <= |events| :: OpenAt(clock, events, j, op, Run(clock, events[..k]).value.admissions[op])
  }

  predicate OpenAt(clock: int, events: seq<Event>, j: nat, op: nat, a: Admission)
    requires j <= |events|
  {
    && Run(clock, events[..j]).Some? && op in Run(clock, events[..j]).value.admissions
    && SameAdmission(a, Run(clock, events[..j]).value.admissions[op])
  }

  /** Whoever is recorded as cleared was cleared by an earlier check of the very same operation. */
  lemma {:induction false} ClearedWasChecked(clock: int, events: seq<Event>, op: nat, x: Sid) returns (k: nat)
    requires Run(clock, events).Some? && op in Run(clock, events).value.admissions
    requires x in Cleared(Run(clock, events).value.admissions[op])
    ensures k < |events| && ClearedAt(clock, events, k, op, x)
  {
    hide Next, Cleared, SameDevice;
    assert events[..|events|] == events;
    assert events != [];
    var n := |events| - 1;
    var s := Run(clock, events[..n]).value;
    ClearedStep(s, events[n], op, x);
    if Clears(s, events[n], op, x) {
      k := n;
    } else {
      k := ClearedWasChecked(clock, events[..n], op, x);
      assert events[..n][..k] == events[..k] && events[..n][..n] == events[..n];
      var a := Run(clock, events[..k]).value.admissions[op];
      assert OpenAt(clock, events[..n], n, op, a);
      forall j | k <= j <= |events| ensures OpenAt(clock, events, j, op, a) {
        if j <= n {
          assert OpenAt(clock, events[..n], j, op, a);
          assert events[..n][..j] == events[..j];
        }
      }
    }
  }

  predicate SameDeviceId(r: Registry, x: Sid, y: Sid)
  {
    x in r.sockets && r.sockets[x].device.Some? && Identified(r, y, r.sockets[x].device.value)
  }

  /** Why the step after this run may displace `x`, in terms of the run. */
  predicate Caused(clock: int, events: seq<Event>, e: Event, key: Key, x: Sid)
    requires Run(clock, events).Some? && Admitting(e) && e.op in Run(clock, events).value.admissions
  {
    var s := Run(clock, events).value;
    var a := s.admissions[e.op];
    || FoundInactiveNow(a, e, x)
    || (e.Install? && x == a.contender)
    || (e.Install? && key == a.key && SameDeviceId(s.reg, x, a.contender)
        && exists k | 0 <= k < |events| :: ClearedAt(clock, events, k, e.op, x))
  }

  /**
   * Within the admission paths a live owner loses its registration only when this very check finds its device inactive,
   * when it is the contender itself, or when an earlier check of this admission, open ever since, found it active with
   * account, device and epoch equal to the contender's; account and device are still equal at the replacement.
   */
  lemma DisplacedOnlyWithCause(clock: int, events: seq<Event>, e: Event, key: Key, x: Sid)
    requires Run(clock, events).Some? && Admitting(e)
    requires Next(Run(clock, events).value, e).Some?
    requires Displaced(Run(clock, events).value.reg, Next(Run(clock, events).value, e).value.reg, key, x)
    ensures e.op in Run(clock, events).value.admissions && Caused(clock, events, e, key, x)
  {
    hide Run, Next, Inv, Displaced, FoundInactiveNow, ClearedAt;
    InvRun(clock, events);
    var s := Run(clock, events).value;
    StepDisplaces(s, e, key, x);
    var a := s.admissions[e.op];
    if !FoundInactiveNow(a, e, x) && !(e.Install? && x == a.contender) {
      var k := ClearedWasChecked(clock, events, e.op, x);
      assert ClearedAt(clock, events, k, e.op, x);
    }
  }

  lemma CheckSpares(s: System, op: nat, verdict: Verdict, k: Key, x: Sid)
    requires Sound(s.reg) && op in s.admissions && op < |s.locks.operations|
    requires s.admissions[op].stage.Checking? && s.admissions[op].stage.todo != [] && x != s.admissions[op].stage.todo[0]
    ensures !Displaced(s.reg, DoCheck(s, op, verdict).reg, k, x)
  {
    hide Sound, Evict;
    if LiveLegacy(s.reg, k, x) || LiveMux(s.reg, k, x) { EvictSpares(s.reg, s.admissions[op].key, s.admissions[op].stage.todo[0], k, x); }
  }

  /** What a completed admission leaves: the contender alone holds the key, on its own transport. */
  lemma InstallTakesOver(clock: int, events: seq<Event>, op: nat, expiresAt: int)
    requires Run(clock, events).Some?
    requires var s := Run(clock, events).value;
      InStage(s, op) && s.admissions[op].stage.Ready? && MayInstall(s.reg, s.admissions[op])
    ensures var s := Run(clock, events).value;
      var a := s.admissions[op];
      var n := Next(s, Install(op, expiresAt)).value.reg;
      match a.transport
      case Legacy =>
        a.key in n.legacy && n.legacy[a.key] == a.contender && a.key !in n.mux && n.sockets[a.contender].user == Some(a.key)
      case Mux =>
        && a.key in n.mux && n.mux[a.key] == a.contender && a.key !in n.legacy
        && Subscribed(n.sockets[a.contender], a.key) && n.sockets[a.contender].subs[a.key.room].serial == s.reg.nextSerial
  {
    InvRun(clock, events);
    var s := Run(clock, events).value;
    hide Run, Installed, Sound, OwnersKnown, LocksOk, Staged;
    InstalledHolds(s.reg, s.admissions[op], expiresAt);
  }

  lemma InstalledHolds(r: Registry, a: Admission, expiresAt: int)
    requires Sound(r) && a.contender in r.sockets
    ensures var n := Installed(r, a, expiresAt);
      match a.transport
      case Legacy =>
        a.key in n.legacy && n.legacy[a.key] == a.contender && a.key !in n.mux && n.sockets[a.contender].user == Some(a.key)
      case Mux =>
        && a.key in n.mux && n.mux[a.key] == a.contender && a.key !in n.legacy
        && Subscribed(n.sockets[a.contender], a.key) && n.sockets[a.contender].subs[a.key.room].serial == r.nextSerial
  {
    hide Sound, Shrinks, FenceForMux, FenceForLegacy;
    FenceForMuxSound(r, a.key, a.contender);
    FenceForLegacySound(r, a.key);
  }
}

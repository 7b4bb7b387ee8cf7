/**
 * Who owns a (room, address): the registrations of the two transports and the lookups, removals and
 * installations that keep them apart (backend/socket.io/multiplexed.ts, listeners.ts, clients.ts).
 */
module RoomOwnership {
  import opened Common
  import opened RoomLock

  type Sid = nat

  datatype Device = Device(account: string, id: string, epoch: int)

  /** A subscription object; the serial number stands for its identity. */
  datatype Subscription = Subscription(serial: nat, address: string, expiresAt: int, generation: Sid)

  datatype Socket = Socket(connected: bool, user: Option<Key>, device: Option<Device>, subs: map<string, Subscription>)

  datatype Registry = Registry(
    clock: int, legacy: map<Key, Sid>, mux: map<Key, Sid>, sockets: map<Sid, Socket>,
    devices: map<(string, string), Sid>, nextSerial: nat)

  predicate IsCurrent(r: Registry, x: Sid)
  {
    && x in r.sockets && r.sockets[x].device.Some?
    && var d := r.sockets[x].device.value;
      (d.account, d.id) in r.devices && r.devices[(d.account, d.id)] == x
  }

  predicate LocallyOwns(r: Registry, x: Sid, room: string, sub: Subscription)
  {
    && x in r.sockets && r.sockets[x].connected
    && room in r.sockets[x].subs && r.sockets[x].subs[room] == sub
    && sub.expiresAt > r.clock && sub.generation == x && IsCurrent(r, x)
  }

  predicate LiveLegacy(r: Registry, key: Key, x: Sid)
  {
    key in r.legacy && r.legacy[key] == x && x in r.sockets && r.sockets[x].connected && r.sockets[x].user == Some(key)
  }

  predicate LiveMux(r: Registry, key: Key, x: Sid)
  {
    && key in r.mux && r.mux[key] == x && x in r.sockets && key.room in r.sockets[x].subs
    && r.sockets[x].subs[key.room].address == key.address && LocallyOwns(r, x, key.room, r.sockets[x].subs[key.room])
  }

  // ---------- removals ----------

  /** Deletes the client entry only for the expected socket. */
  function DeleteClient(r: Registry, key: Key, x: Sid): (n: Registry)
    ensures n.nextSerial == r.nextSerial
  {
    if key in r.legacy && r.legacy[key] == x then r.(legacy := r.legacy - {key}) else r
  }

  /** Removes a subscription only while it is the socket's current one for the room. */
  function RemoveSubscription(r: Registry, x: Sid, room: string, sub: Subscription): (n: Registry)
    ensures n.sockets.Keys == r.sockets.Keys && n.nextSerial == r.nextSerial
  {
    if x in r.sockets && room in r.sockets[x].subs && r.sockets[x].subs[room] == sub then
      var key := Key(room, sub.address);
      r.(sockets := r.sockets[x := r.sockets[x].(subs := r.sockets[x].subs - {room})],
         mux := if key in r.mux && r.mux[key] == x then r.mux - {key} else r.mux)
    else r
  }

  function ReleaseRoom(r: Registry, x: Sid, room: string): (n: Registry)
    ensures n.sockets.Keys == r.sockets.Keys && n.nextSerial == r.nextSerial
  {
    if x in r.sockets && room in r.sockets[x].subs then RemoveSubscription(r, x, room, r.sockets[x].subs[room]) else r
  }

  /** The registrations of a socket's own subscriptions. */
  predicate Subscribed(s: Socket, key: Key)
  {
    key.room in s.subs && s.subs[key.room].address == key.address
  }

  function MuxWithout(r: Registry, x: Sid): (m: map<Key, Sid>)
    requires x in r.sockets
  {
    map key | key in r.mux && !(r.mux[key] == x && Subscribed(r.sockets[x], key)) :: r.mux[key]
  }

  function RemoveAll(r: Registry, x: Sid): (n: Registry)
  {
    if x in r.sockets then
      r.(sockets := r.sockets[x := r.sockets[x].(subs := map[])], mux := MuxWithout(r, x))
    else r
  }

  function DropDevice(r: Registry, x: Sid): (n: Registry)
  {
    if IsCurrent(r, x) then
      r.(devices := r.devices - {(r.sockets[x].device.value.account, r.sockets[x].device.value.id)})
    else r
  }

  function Disconnect(r: Registry, x: Sid): (n: Registry)
  {
    if x in r.sockets then r.(sockets := r.sockets[x := r.sockets[x].(connected := false)]) else r
  }

  /** A device found inactive: its subscriptions, its registration as current device and its connection go. */
  function Invalidate(r: Registry, x: Sid): (n: Registry)
  {
    Disconnect(DropDevice(RemoveAll(r, x), x), x)
  }

  // ---------- lookups, which clear what is stale ----------

  function LegacyOwner(r: Registry, key: Key): (o: (Option<Sid>, Registry))
    ensures o.1.sockets.Keys == r.sockets.Keys && o.1.nextSerial == r.nextSerial
  {
    if key in r.legacy then
      if LiveLegacy(r, key, r.legacy[key]) then (Some(r.legacy[key]), r) else (None, DeleteClient(r, key, r.legacy[key]))
    else (None, r)
  }

  function MuxOwner(r: Registry, key: Key): (o: (Option<Sid>, Registry))
    ensures o.1.sockets.Keys == r.sockets.Keys && o.1.nextSerial == r.nextSerial
  {
    if key in r.mux then
      if LiveMux(r, key, r.mux[key]) then (Some(r.mux[key]), r) else (None, ReleaseRoom(r, r.mux[key], key.room))
    else (None, r)
  }

  // ---------- installations ----------

  function Routes(r: Registry, room: string): (addresses: set<string>)
  {
    (set key | key in r.legacy && key.room == room :: key.address) + (set key | key in r.mux && key.room == room :: key.address)
  }

  predicate WouldExceed(r: Registry, key: Key, capacity: nat)
  {
    |Routes(r, key.room)| >= capacity && key.address !in Routes(r, key.room)
  }

  /** Clears whoever holds the key, on either transport, then the contender's own earlier room entry. */
  function FenceForMux(r: Registry, key: Key, x: Sid): (n: Registry)
    ensures n.sockets.Keys == r.sockets.Keys && n.nextSerial == r.nextSerial
  {
    var (oldLegacy, r1) := LegacyOwner(r, key);
    var (oldMux, r2) := MuxOwner(r1, key);
    var r3 := if oldLegacy.Some? then DeleteClient(r2, key, oldLegacy.value) else r2;
    var r4 := if oldMux.Some? && oldMux.value != x then ReleaseRoom(r3, oldMux.value, key.room) else r3;
    ReleaseRoom(r4, x, key.room)
  }

  function Subscribe(r: Registry, key: Key, x: Sid, sub: Subscription): (n: Registry)
    requires x in r.sockets
  {
    r.(sockets := r.sockets[x := r.sockets[x].(subs := r.sockets[x].subs[key.room := sub])], mux := r.mux[key := x])
  }

  function InstallMux(r: Registry, key: Key, x: Sid, expiresAt: int): (n: Registry)
    requires x in r.sockets
  {
    var f := FenceForMux(r, key, x);
    Subscribe(f, key, x, Subscription(f.nextSerial, key.address, expiresAt, x)).(nextSerial := f.nextSerial + 1)
  }

  function FenceForLegacy(r: Registry, key: Key): (n: Registry)
    ensures n.sockets.Keys == r.sockets.Keys
  {
    var (_, r1) := LegacyOwner(r, key);
    var (oldMux, r2) := MuxOwner(r1, key);
    if oldMux.Some? then ReleaseRoom(r2, oldMux.value, key.room) else r2
  }

  function Join(r: Registry, key: Key, x: Sid): (n: Registry)
    requires x in r.sockets
  {
    r.(legacy := r.legacy[key := x], sockets := r.sockets[x := r.sockets[x].(user := Some(key))])
  }

  function InstallLegacy(r: Registry, key: Key, x: Sid): (n: Registry)
    requires x in r.sockets
  {
    Join(FenceForLegacy(r, key), key, x)
  }

  // ---------- what every reachable registry satisfies ----------

  /** The mux room map and the per-socket subscription maps are mutual inverses. */
  predicate Inverse(r: Registry)
  {
    && (forall key | key in r.mux :: r.mux[key] in r.sockets && Subscribed(r.sockets[r.mux[key]], key))
    && (forall x, room | x in r.sockets && room in r.sockets[x].subs ::
          var key := Key(room, r.sockets[x].subs[room].address); key in r.mux && r.mux[key] == x)
  }

  /** No (room, address) is registered on both transports. */
  predicate Exclusive(r: Registry)
  {
    forall key | key in r.legacy :: key !in r.mux
  }

  predicate Sound(r: Registry)
  {
    Inverse(r) && Exclusive(r)
  }

  predicate SameIdentity(a: Socket, b: Socket)
  {
    a.device.Some? ==> b.device.Some? && a.device.value.account == b.device.value.account && a.device.value.id == b.device.value.id
  }

  /** Nothing is registered anew except possibly under `key`, and identities stay. */
  predicate ShrinksBut(r: Registry, n: Registry, key: Key)
  {
    && (forall k | k in n.legacy && k != key :: k in r.legacy && r.legacy[k] == n.legacy[k])
    && (forall k | k in n.mux && k != key :: k in r.mux && r.mux[k] == n.mux[k])
    && (forall x | x in r.sockets :: x in n.sockets && SameIdentity(r.sockets[x], n.sockets[x]))
  }

  predicate Shrinks(r: Registry, n: Registry)
  {
    && (forall k | k in n.legacy :: k in r.legacy && r.legacy[k] == n.legacy[k])
    && (forall k | k in n.mux :: k in r.mux && r.mux[k] == n.mux[k])
    && (forall x | x in r.sockets :: x in n.sockets && SameIdentity(r.sockets[x], n.sockets[x]))
  }

  lemma ShrinksTwice(a: Registry, b: Registry, c: Registry)
    requires Shrinks(a, b) && Shrinks(b, c)
    ensures Shrinks(a, c)
  {
  }

  lemma DeleteClientSound(r: Registry, key: Key, x: Sid)
    requires Sound(r)
    ensures Sound(DeleteClient(r, key, x)) && Shrinks(r, DeleteClient(r, key, x))
    ensures DeleteClient(r, key, x) == r.(legacy := DeleteClient(r, key, x).legacy)
    ensures key in r.legacy && r.legacy[key] == x ==> key !in DeleteClient(r, key, x).legacy
  {
  }

  lemma RemoveSubscriptionShrinks(r: Registry, x: Sid, room: string, sub: Subscription)
    ensures Shrinks(r, RemoveSubscription(r, x, room, sub))
  {
  }

  lemma RemoveSubscriptionSound(r: Registry, x: Sid, room: string, sub: Subscription)
    requires Sound(r)
    ensures Sound(RemoveSubscription(r, x, room, sub)) && Shrinks(r, RemoveSubscription(r, x, room, sub))
  {
    RemoveSubscriptionShrinks(r, x, room, sub);
    hide Shrinks;
    var n := RemoveSubscription(r, x, room, sub);
    forall y, q | y in n.sockets && q in n.sockets[y].subs
      ensures var k := Key(q, n.sockets[y].subs[q].address); k in n.mux && n.mux[k] == y
    {
      assert q in r.sockets[y].subs && n.sockets[y].subs[q] == r.sockets[y].subs[q];
    }
  }

  lemma ReleaseRoomSound(r: Registry, x: Sid, room: string)
    requires Sound(r)
    ensures Sound(ReleaseRoom(r, x, room)) && Shrinks(r, ReleaseRoom(r, x, room))
    ensures ReleaseRoom(r, x, room).legacy == r.legacy && ReleaseRoom(r, x, room).sockets.Keys == r.sockets.Keys
    ensures x in r.sockets ==> room !in ReleaseRoom(r, x, room).sockets[x].subs
    ensures forall key | key in r.mux && r.mux[key] == x && key.room == room :: key !in ReleaseRoom(r, x, room).mux
  {
    if x in r.sockets && room in r.sockets[x].subs { RemoveSubscriptionSound(r, x, room, r.sockets[x].subs[room]); }
  }

  lemma RemoveAllSound(r: Registry, x: Sid)
    requires Sound(r)
    ensures Sound(RemoveAll(r, x)) && Shrinks(r, RemoveAll(r, x))
    ensures forall key | key in r.mux && r.mux[key] == x :: key !in RemoveAll(r, x).mux
  {
  }

  lemma DropDeviceSound(r: Registry, x: Sid)
    requires Sound(r)
    ensures Sound(DropDevice(r, x)) && Shrinks(r, DropDevice(r, x)) && DropDevice(r, x).mux == r.mux
  {
  }

  /** Soundness is about registrations and subscriptions only. */
  lemma SameSubsSound(r: Registry, n: Registry)
    requires Sound(r) && n.mux == r.mux && n.legacy == r.legacy && n.sockets.Keys == r.sockets.Keys
    requires forall x | x in r.sockets :: n.sockets[x].subs == r.sockets[x].subs
    ensures Sound(n)
  {
    forall key | key in n.mux ensures n.mux[key] in n.sockets && Subscribed(n.sockets[n.mux[key]], key) {
      assert Subscribed(r.sockets[r.mux[key]], key);
    }
    forall x, room | x in n.sockets && room in n.sockets[x].subs
      ensures var k := Key(room, n.sockets[x].subs[room].address); k in n.mux && n.mux[k] == x
    {
      assert x in r.sockets && room in r.sockets[x].subs;
    }
  }

  lemma DisconnectSound(r: Registry, x: Sid)
    requires Sound(r)
    ensures Sound(Disconnect(r, x)) && Shrinks(r, Disconnect(r, x)) && Disconnect(r, x).mux == r.mux
    ensures Disconnect(r, x).legacy == r.legacy
  {
    hide Sound;
    SameSubsSound(r, Disconnect(r, x));
  }

  lemma InvalidateSound(r: Registry, x: Sid)
    requires Sound(r)
    ensures Sound(Invalidate(r, x)) && Shrinks(r, Invalidate(r, x))
    ensures forall key | key in r.mux && r.mux[key] == x :: key !in Invalidate(r, x).mux
  {
    hide RemoveAll, DropDevice, Disconnect, Sound, Shrinks;
    RemoveAllSound(r, x);
    DropDeviceSound(RemoveAll(r, x), x);
    DisconnectSound(DropDevice(RemoveAll(r, x), x), x);
    ShrinksTwice(r, RemoveAll(r, x), DropDevice(RemoveAll(r, x), x));
    ShrinksTwice(r, DropDevice(RemoveAll(r, x), x), Invalidate(r, x));
  }

  /** The lookup answers with the live owner if there is one; otherwise no entry is left. */
  lemma LegacyOwnerSound(r: Registry, key: Key)
    requires Sound(r)
    ensures var (o, n) := LegacyOwner(r, key);
      && Sound(n) && Shrinks(r, n) && n == r.(legacy := n.legacy)
      && (match o case Some(x) => LiveLegacy(n, key, x) && n == r case None => key !in n.legacy)
  {
    hide Sound, Shrinks, DeleteClient;
    DeleteClientSound(r, key, if key in r.legacy then r.legacy[key] else 0);
    ShrinksSelf(r);
  }

  lemma ShrinksSelf(r: Registry)
    ensures Shrinks(r, r)
  {
  }

  lemma MuxOwnerSound(r: Registry, key: Key)
    requires Sound(r)
    ensures var (o, n) := MuxOwner(r, key);
      && Sound(n) && Shrinks(r, n) && n.legacy == r.legacy
      && (match o case Some(x) => LiveMux(n, key, x) && n == r case None => key !in n.mux)
  {
    hide Sound, Shrinks, ReleaseRoom;
    ShrinksSelf(r);
    if key in r.mux { ReleaseRoomSound(r, r.mux[key], key.room); }
  }

  lemma AbsentStays(a: Registry, b: Registry, key: Key)
    requires Shrinks(a, b)
    ensures key !in a.legacy ==> key !in b.legacy
    ensures key !in a.mux ==> key !in b.mux
    ensures a.sockets.Keys <= b.sockets.Keys
  {
  }

  /** After the fence nobody holds the key on either transport, and the contender holds no other address of the room. */
  lemma FenceForMuxSound(r: Registry, key: Key, x: Sid)
    requires Sound(r) && x in r.sockets
    ensures var f := FenceForMux(r, key, x);
      && Sound(f) && Shrinks(r, f) && x in f.sockets
      && key !in f.legacy && key !in f.mux && key.room !in f.sockets[x].subs
  {
    hide Sound, Shrinks, MuxOwner, LegacyOwner, ReleaseRoom, DeleteClient;
    var (oldLegacy, r1) := LegacyOwner(r, key);
    LegacyOwnerSound(r, key);
    var (oldMux, r2) := MuxOwner(r1, key);
    MuxOwnerSound(r1, key);
    var r3 := if oldLegacy.Some? then DeleteClient(r2, key, oldLegacy.value) else r2;
    if oldLegacy.Some? { DeleteClientSound(r2, key, oldLegacy.value); }
    var r4 := if oldMux.Some? && oldMux.value != x then ReleaseRoom(r3, oldMux.value, key.room) else r3;
    ReleaseRoomSound(r3, if oldMux.Some? then oldMux.value else x, key.room);
    ReleaseRoomSound(r4, x, key.room);
    assert Shrinks(r2, r3) by { ShrinksSelf(r2); }
    assert Shrinks(r3, r4) by { ShrinksSelf(r3); }
    AbsentStays(r1, r2, key);
    AbsentStays(r3, r4, key);
    AbsentStays(r4, ReleaseRoom(r4, x, key.room), key);
    ShrinksTwice(r, r1, r2);
    ShrinksTwice(r, r2, r3);
    ShrinksTwice(r, r3, r4);
    ShrinksTwice(r, r4, ReleaseRoom(r4, x, key.room));
    AbsentStays(r, r4, key);
  }

  lemma FenceForLegacySound(r: Registry, key: Key)
    requires Sound(r)
    ensures var f := FenceForLegacy(r, key);
      Sound(f) && Shrinks(r, f) && key !in f.mux
  {
    hide Sound, MuxOwner, LegacyOwner, ReleaseRoom;
    var (_, r1) := LegacyOwner(r, key);
    LegacyOwnerSound(r, key);
    var (oldMux, r2) := MuxOwner(r1, key);
    MuxOwnerSound(r1, key);
    if oldMux.Some? { ReleaseRoomSound(r2, oldMux.value, key.room); }
  }

  lemma ShrinksThen(a: Registry, b: Registry, c: Registry, key: Key)
    requires Shrinks(a, b) && ShrinksBut(b, c, key)
    ensures ShrinksBut(a, c, key)
  {
  }

  lemma SubscribeShrinks(r: Registry, key: Key, x: Sid, sub: Subscription, serial: nat)
    requires x in r.sockets
    ensures ShrinksBut(r, Subscribe(r, key, x, sub).(nextSerial := serial), key)
  {
  }

  lemma SubscribeRegistered(r: Registry, key: Key, x: Sid, sub: Subscription)
    requires Inverse(r) && x in r.sockets && sub.address == key.address && key.room !in r.sockets[x].subs
    ensures var n := Subscribe(r, key, x, sub);
      forall k | k in n.mux :: n.mux[k] in n.sockets && Subscribed(n.sockets[n.mux[k]], k)
  {
    var n := Subscribe(r, key, x, sub);
    forall k | k in n.mux ensures n.mux[k] in n.sockets && Subscribed(n.sockets[n.mux[k]], k) {
      if k != key { assert n.mux[k] == r.mux[k] && Subscribed(r.sockets[r.mux[k]], k); }
    }
  }

  lemma SubscribeSound(r: Registry, key: Key, x: Sid, sub: Subscription, serial: nat)
    requires Sound(r) && x in r.sockets && sub.address == key.address
    requires key !in r.legacy && key !in r.mux && key.room !in r.sockets[x].subs
    ensures var n := Subscribe(r, key, x, sub).(nextSerial := serial); Sound(n) && ShrinksBut(r, n, key)
  {
    var n := Subscribe(r, key, x, sub);
    SubscribeShrinks(r, key, x, sub, serial);
    SubscribeRegistered(r, key, x, sub);
    hide ShrinksBut, Subscribed;
    forall y, room | y in n.sockets && room in n.sockets[y].subs
      ensures var k := Key(room, n.sockets[y].subs[room].address); k in n.mux && n.mux[k] == y
    {
      if y != x || room != key.room { assert room in r.sockets[y].subs && n.sockets[y].subs[room] == r.sockets[y].subs[room]; }
    }
  }

  lemma JoinSound(r: Registry, key: Key, x: Sid)
    requires Sound(r) && x in r.sockets && key !in r.mux
    ensures Sound(Join(r, key, x)) && ShrinksBut(r, Join(r, key, x), key)
  {
    var n := Join(r, key, x);
    forall y, room | y in n.sockets && room in n.sockets[y].subs
      ensures var k := Key(room, n.sockets[y].subs[room].address); k in n.mux && n.mux[k] == y
    {
      assert room in r.sockets[y].subs && n.sockets[y].subs[room] == r.sockets[y].subs[room];
    }
  }

  lemma InstallMuxSound(r: Registry, key: Key, x: Sid, expiresAt: int)
    requires Sound(r) && x in r.sockets
    ensures var n := InstallMux(r, key, x, expiresAt); Sound(n) && ShrinksBut(r, n, key)
  {
    hide FenceForMux, Subscribe, Sound, Shrinks, ShrinksBut;
    FenceForMuxSound(r, key, x);
    var f := FenceForMux(r, key, x);
    SubscribeSound(f, key, x, Subscription(f.nextSerial, key.address, expiresAt, x), f.nextSerial + 1);
    ShrinksThen(r, f, InstallMux(r, key, x, expiresAt), key);
  }

  lemma InstallLegacySound(r: Registry, key: Key, x: Sid)
    requires Sound(r) && x in r.sockets
    ensures var n := InstallLegacy(r, key, x); Sound(n) && ShrinksBut(r, n, key)
  {
    hide FenceForLegacy, Join, Sound, ShrinksBut;
    FenceForLegacySound(r, key);
    JoinSound(FenceForLegacy(r, key), key, x);
    ShrinksThen(r, FenceForLegacy(r, key), InstallLegacy(r, key, x), key);
  }
}

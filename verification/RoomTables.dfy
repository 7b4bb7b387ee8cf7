/**
 * The tables the relay changes in place (backend/socket.io/clients.ts, multiplexed.ts): nested records keyed by
 * room and address, and the sequences of changes that make up a removal, a lookup and an installation. Each
 * method is tied to the registry function that RoomOwnership reasons about.
 */
module RoomTables {
  import opened Common
  import opened RoomLock
  import opened RoomOwnership

  type Record = map<string, map<string, Sid>>

  function Flat(record: Record): (m: map<Key, Sid>)
    ensures forall key :: key in m <==> key.room in record && key.address in record[key.room]
    ensures forall key | key in m :: m[key] == record[key.room][key.address]
  {
    map room, address | room in record && address in record[room] :: Key(room, address) := record[room][address]
  }

  predicate NoEmptyRoom(record: Record)
  {
    forall room | room in record :: record[room] != map[]
  }

  function Put(record: Record, key: Key, x: Sid): (n: Record)
  {
    record[key.room := if key.room in record then record[key.room][key.address := x] else map[key.address := x]]
  }

  function Drop(record: Record, key: Key): (n: Record)
    requires key.room in record
  {
    var rest := record[key.room] - {key.address};
    if rest == map[] then record - {key.room} else record[key.room := rest]
  }

  function Find(record: Record, key: Key): (x: Option<Sid>)
  {
    if key.room in record && key.address in record[key.room] then Some(record[key.room][key.address]) else None
  }

  /** A flat table is determined by what each key finds. */
  lemma FlatIs(record: Record, m: map<Key, Sid>)
    requires forall key :: Find(record, key) == if key in m then Some(m[key]) else None
    ensures Flat(record) == m
  {
    var f := Flat(record);
    forall key ensures key in f <==> key in m { assert Find(record, key).Some? <==> key in m; }
    forall key | key in f ensures f[key] == m[key] { assert Find(record, key) == Some(m[key]); }
  }

  lemma PutFind(record: Record, key: Key, x: Sid, k: Key)
    ensures Find(Put(record, key, x), k) == if k == key then Some(x) else Find(record, k)
  {
  }

  lemma DropFind(record: Record, key: Key, k: Key)
    requires key.room in record
    ensures Find(Drop(record, key), k) == if k == key then None else Find(record, k)
  {
    var rest := record[key.room] - {key.address};
    if k.room == key.room && k.address != key.address && k.address in record[key.room] { assert k.address in rest; }
  }

  lemma PutFlat(record: Record, key: Key, x: Sid)
    requires NoEmptyRoom(record)
    ensures NoEmptyRoom(Put(record, key, x)) && Flat(Put(record, key, x)) == Flat(record)[key := x]
  {
    assert NoEmptyRoom(Put(record, key, x)) by { assert key.address in Put(record, key, x)[key.room]; }
    hide Put, NoEmptyRoom;
    forall k ensures Find(Put(record, key, x), k) == if k == key then Some(x) else Find(record, k) { PutFind(record, key, x, k); }
    FlatIs(Put(record, key, x), Flat(record)[key := x]);
  }

  lemma DropFlat(record: Record, key: Key)
    requires NoEmptyRoom(record) && key.room in record
    ensures NoEmptyRoom(Drop(record, key)) && Flat(Drop(record, key)) == Flat(record) - {key}
  {
    assert NoEmptyRoom(Drop(record, key));
    hide Drop, NoEmptyRoom;
    forall k ensures Find(Drop(record, key), k) == if k == key then None else Find(record, k) { DropFind(record, key, k); }
    FlatIs(Drop(record, key), Flat(record) - {key});
  }

  /** Both `clientRecord` and `muxRoomSockets`: a room whose last address goes is dropped with it. */
  class RouteTable {
    var record: Record

    ghost predicate Valid()
      reads this
    {
      NoEmptyRoom(record)
    }

    ghost function Contents(): (m: map<Key, Sid>)
      reads this
    {
      Flat(record)
    }

    constructor ()
      ensures Valid() && Contents() == map[]
    {
      record := map[];
    }

    method Get(key: Key) returns (x: Option<Sid>)
      ensures x == if key in Contents() then Some(Contents()[key]) else None
    {
      x := if key.room in record && key.address in record[key.room] then Some(record[key.room][key.address]) else None;
    }

    method SetClientToChannel(key: Key, x: Sid)
      requires Valid()
      modifies this
      ensures Valid() && Contents() == old(Contents())[key := x]
    {
      hide Flat, NoEmptyRoom;
      PutFlat(record, key, x);
      var users: map<string, Sid> := if key.room in record then record[key.room][key.address := x] else map[key.address := x];
      record := record[key.room := users];
    }

    /** Deletes only for the expected socket, so a late disconnect cannot erase its replacement. */
    method DeleteClient(key: Key, expected: Sid) returns (deleted: bool)
      requires Valid()
      modifies this
      ensures Valid() && (deleted <==> key in old(Contents()) && old(Contents())[key] == expected)
      ensures Contents() == if deleted then old(Contents()) - {key} else old(Contents())
    {
      hide NoEmptyRoom;
      if key.room !in record || key.address !in record[key.room] || record[key.room][key.address] != expected { return false; }
      DropFlat(record, key);
      var rest := record[key.room] - {key.address};
      record := if rest == map[] then record - {key.room} else record[key.room := rest];
      return true;
    }
  }

  class Relay {
    const clients: RouteTable
    const rooms: RouteTable
    var clock: int
    var sockets: map<Sid, Socket>
    var devices: map<(string, string), Sid>
    var nextSerial: nat

    ghost predicate Valid()
      reads this, clients, rooms
    {
      clients != rooms && clients.Valid() && rooms.Valid()
    }

    ghost function Registry(): (r: Registry)
      reads this, clients, rooms
    {
      RoomOwnership.Registry(clock, clients.Contents(), rooms.Contents(), sockets, devices, nextSerial)
    }

    constructor (now: int)
      ensures Valid() && fresh(clients) && fresh(rooms)
      ensures Registry() == RoomOwnership.Registry(now, map[], map[], map[], map[], 0)
    {
      clients := new RouteTable();
      rooms := new RouteTable();
      clock := now;
      sockets := map[];
      devices := map[];
      nextSerial := 0;
    }

    predicate IsCurrentMuxSocket(x: Sid)
      reads this, clients, rooms
      ensures IsCurrentMuxSocket(x) <==> IsCurrent(Registry(), x)
    {
      && x in sockets && sockets[x].device.Some?
      && var d := sockets[x].device.value;
        (d.account, d.id) in devices && devices[(d.account, d.id)] == x
    }

    predicate LocallyOwnsSubscription(x: Sid, room: string, sub: Subscription)
      reads this, clients, rooms
      ensures LocallyOwnsSubscription(x, room, sub) <==> LocallyOwns(Registry(), x, room, sub)
    {
      && x in sockets && sockets[x].connected && room in sockets[x].subs && sockets[x].subs[room] == sub
      && sub.expiresAt > clock && sub.generation == x && IsCurrentMuxSocket(x)
    }

    method RemoveSubscription(x: Sid, room: string, sub: Subscription)
      requires Valid()
      modifies this, rooms
      ensures Valid() && Registry() == RoomOwnership.RemoveSubscription(old(Registry()), x, room, sub)
    {
      if x !in sockets || room !in sockets[x].subs || sockets[x].subs[room] != sub { return; }
      sockets := sockets[x := sockets[x].(subs := sockets[x].subs - {room})];
      var _ := rooms.DeleteClient(Key(room, sub.address), x);
    }

    method DropClient(key: Key, x: Sid)
      requires Valid()
      modifies clients
      ensures Valid() && Registry() == RoomOwnership.DeleteClient(old(Registry()), key, x)
      ensures clock == old(clock) && sockets == old(sockets) && devices == old(devices) && nextSerial == old(nextSerial)
    {
      var _ := clients.DeleteClient(key, x);
    }

    /** The live legacy owner, clearing an entry that no longer stands for one. */
    method LegacyRoomOwner(key: Key) returns (owner: Option<Sid>)
      requires Valid()
      modifies clients
      ensures Valid() && (owner, Registry()) == LegacyOwner(old(Registry()), key)
    {
      var sid := clients.Get(key);
      if sid.None? { return None; }
      if sid.value in sockets && sockets[sid.value].connected && sockets[sid.value].user == Some(key) { return sid; }
      DropClient(key, sid.value);
      return None;
    }

    method MuxRoomOwner(key: Key) returns (owner: Option<Sid>)
      requires Valid()
      modifies this, rooms
      ensures Valid() && (owner, Registry()) == MuxOwner(old(Registry()), key)
    {
      var sid := rooms.Get(key);
      if sid.None? { return None; }
      if sid.value in sockets && key.room in sockets[sid.value].subs && sockets[sid.value].subs[key.room].address == key.address
         && LocallyOwnsSubscription(sid.value, key.room, sockets[sid.value].subs[key.room])
      {
        return sid;
      }
      if sid.value in sockets && key.room in sockets[sid.value].subs {
        RemoveSubscription(sid.value, key.room, sockets[sid.value].subs[key.room]);
      }
      return None;
    }

    /** Removes every subscription of the socket, one at a time, then its device entry and its connection. */
    method InvalidateMuxDeviceSocket(x: Sid)
      requires Valid()
      modifies this, rooms
      ensures Valid() && Registry() == Invalidate(old(Registry()), x)
    {
      ghost var was := Registry();
      if x in sockets {
        var todo := sockets[x].subs.Keys;
        PartlyRemovedStart(was, x);
        while todo != {}
          invariant Valid() && x in sockets && todo <= was.sockets[x].subs.Keys
          invariant Registry() == PartlyRemoved(was, x, todo)
          decreases todo
        {
          var room :| room in todo;
          PartlyRemovedStep(was, x, todo, room);
          RemoveSubscription(x, room, sockets[x].subs[room]);
          todo := todo - {room};
        }
        PartlyRemovedDone(was, x);
        if IsCurrentMuxSocket(x) {
          var d := sockets[x].device.value;
          devices := devices - {(d.account, d.id)};
        }
        sockets := sockets[x := sockets[x].(connected := false)];
      }
    }

    method ReleaseMuxRoomOwner(x: Sid, room: string)
      requires Valid()
      modifies this, rooms
      ensures Valid() && Registry() == ReleaseRoom(old(Registry()), x, room)
    {
      if x in sockets && room in sockets[x].subs { RemoveSubscription(x, room, sockets[x].subs[room]); }
    }

    /** The synchronous end of a mux admission: fence the incumbents, then install. */
    method InstallMuxOwner(key: Key, x: Sid, expiresAt: int)
      requires Valid() && x in sockets
      modifies this, clients, rooms
      ensures Valid() && Registry() == InstallMux(old(Registry()), key, x, expiresAt)
    {
      hide LegacyOwner, MuxOwner, ReleaseRoom, RoomOwnership.DeleteClient, Subscribe, Flat, NoEmptyRoom;
      var oldLegacy := LegacyRoomOwner(key);
      var oldMux := MuxRoomOwner(key);
      if oldLegacy.Some? { DropClient(key, oldLegacy.value); }
      if oldMux.Some? && oldMux.value != x { ReleaseMuxRoomOwner(oldMux.value, key.room); }
      ReleaseMuxRoomOwner(x, key.room);
      assert Registry() == FenceForMux(old(Registry()), key, x);
      AddSubscription(key, x, expiresAt);
    }

    method AddSubscription(key: Key, x: Sid, expiresAt: int)
      requires Valid() && x in sockets
      modifies this, rooms
      ensures Valid()
      ensures Registry() ==
        Subscribe(old(Registry()), key, x, Subscription(old(nextSerial), key.address, expiresAt, x)).(nextSerial := old(nextSerial) + 1)
    {
      hide Flat, NoEmptyRoom;
      var sub := Subscription(nextSerial, key.address, expiresAt, x);
      sockets := sockets[x := sockets[x].(subs := sockets[x].subs[key.room := sub])];
      rooms.SetClientToChannel(key, x);
      nextSerial := nextSerial + 1;
    }

    /** The synchronous end of a legacy admission. */
    method InstallLegacyOwner(key: Key, x: Sid)
      requires Valid() && x in sockets
      modifies this, clients, rooms
      ensures Valid() && Registry() == InstallLegacy(old(Registry()), key, x)
    {
      hide LegacyOwner, MuxOwner, ReleaseRoom, Flat, NoEmptyRoom;
      var _ := LegacyRoomOwner(key);
      var oldMux := MuxRoomOwner(key);
      if oldMux.Some? { ReleaseMuxRoomOwner(oldMux.value, key.room); }
      assert Registry() == FenceForLegacy(old(Registry()), key);
      clients.SetClientToChannel(key, x);
      sockets := sockets[x := sockets[x].(user := Some(key))];
    }
  }

  /** The registry after all subscriptions of `x` but those for the rooms in `todo` are gone. */
  function PartlyRemoved(r: Registry, x: Sid, todo: set<string>): (n: Registry)
    requires x in r.sockets
  {
    r.(sockets := r.sockets[x := r.sockets[x].(subs := map room | room in r.sockets[x].subs && room in todo :: r.sockets[x].subs[room])],
       mux := map key | key in r.mux && !(r.mux[key] == x && Subscribed(r.sockets[x], key) && key.room !in todo) :: r.mux[key])
  }

  lemma PartlyRemovedStep(r: Registry, x: Sid, todo: set<string>, room: string)
    requires x in r.sockets && room in todo && todo <= r.sockets[x].subs.Keys
    ensures var p := PartlyRemoved(r, x, todo);
      RemoveSubscription(p, x, room, p.sockets[x].subs[room]) == PartlyRemoved(r, x, todo - {room})
  {
    var p := PartlyRemoved(r, x, todo);
    var n, m := RemoveSubscription(p, x, room, p.sockets[x].subs[room]), PartlyRemoved(r, x, todo - {room});
    assert n.sockets[x].subs == m.sockets[x].subs;
    assert n.mux == m.mux;
  }

  lemma PartlyRemovedStart(r: Registry, x: Sid)
    requires x in r.sockets
    ensures PartlyRemoved(r, x, r.sockets[x].subs.Keys) == r
  {
    var n := PartlyRemoved(r, x, r.sockets[x].subs.Keys);
    assert n.sockets[x].subs == r.sockets[x].subs;
    assert n.sockets == r.sockets;
    assert n.mux == r.mux;
  }

  lemma PartlyRemovedDone(r: Registry, x: Sid)
    requires x in r.sockets
    ensures PartlyRemoved(r, x, {}) == RemoveAll(r, x)
  {
    assert PartlyRemoved(r, x, {}).mux == RemoveAll(r, x).mux;
    assert PartlyRemoved(r, x, {}).sockets[x].subs == map[];
  }
}

/**
 * The promise chain that serializes ownership admission per (room, address), backend/socket.io/multiplexed.ts.
 * Each operation waits for the promise that was the tail of its key when it arrived and installs its own tail,
 * which resolves once that earlier promise and its own gate have. A finished operation drops the map entry
 * only if its tail is still the last.
 */
module RoomLock {
  import opened Common

  datatype Key = Key(room: string, address: string)

  datatype Phase = Waiting | Inside | Done

  datatype Operation = Operation(key: Key, previous: Option<nat>, phase: Phase)

  /** `operations` in arrival order; `tails` names the operation whose tail the map holds for a key. */
  datatype Locks = Locks(tails: map<Key, nat>, operations: seq<Operation>)

  /** The tail promise of operation `i`: the promise before it has resolved, and its gate is open. */
  predicate Resolved(ops: seq<Operation>, i: nat)
    requires i < |ops|
    decreases i
  {
    && ops[i].phase == Done
    && (ops[i].previous.Some? ==> ops[i].previous.value < i && Resolved(ops, ops[i].previous.value))
  }

  predicate MayEnter(l: Locks, i: nat)
  {
    && i < |l.operations| && l.operations[i].phase == Waiting
    && (l.operations[i].previous.Some? ==>
          && l.operations[i].previous.value < |l.operations|
          && Resolved(l.operations, l.operations[i].previous.value))
  }

  function Arrive(l: Locks, key: Key): (m: Locks)
  {
    Locks(l.tails[key := |l.operations|],
          l.operations + [Operation(key, if key in l.tails then Some(l.tails[key]) else None, Waiting)])
  }

  function Enter(l: Locks, i: nat): (m: Locks)
    requires MayEnter(l, i)
  {
    l.(operations := l.operations[i := l.operations[i].(phase := Inside)])
  }

  function Release(l: Locks, i: nat): (m: Locks)
    requires i < |l.operations|
  {
    var key := l.operations[i].key;
    Locks(if key in l.tails && l.tails[key] == i then l.tails - {key} else l.tails,
          l.operations[i := l.operations[i].(phase := Done)])
  }

  predicate Chained(l: Locks, i: nat)
    requires i < |l.operations|
  {
    var op := l.operations[i];
    match op.previous
    case Some(p) =>
      && p < i && l.operations[p].key == op.key
      && (forall j | p < j < i :: l.operations[j].key != op.key)
    case None =>
      forall j | 0 <= j < i && l.operations[j].key == op.key :: l.operations[j].phase == Done
  }

  predicate TailOk(l: Locks, key: Key)
  {
    if key in l.tails then
      && l.tails[key] < |l.operations| && l.operations[l.tails[key]].key == key
      && (forall j | l.tails[key] < j < |l.operations| :: l.operations[j].key != key)
    else
      forall j | 0 <= j < |l.operations| && l.operations[j].key == key :: l.operations[j].phase == Done
  }

  /** Whoever is past the gate has every earlier arrival for its key behind it, finished. */
  predicate TurnOk(l: Locks, i: nat)
    requires i < |l.operations|
  {
    l.operations[i].phase != Waiting ==>
      forall j | 0 <= j < i && l.operations[j].key == l.operations[i].key :: l.operations[j].phase == Done
  }

  ghost predicate LocksOk(l: Locks)
  {
    && (forall i | 0 <= i < |l.operations| :: Chained(l, i))
    && (forall i | 0 <= i < |l.operations| :: TurnOk(l, i))
    && (forall key :: TailOk(l, key))
  }

  lemma ArriveKeeps(l: Locks, key: Key)
    requires LocksOk(l)
    ensures LocksOk(Arrive(l, key))
  {
    var m := Arrive(l, key);
    forall i | 0 <= i < |m.operations| ensures Chained(m, i) && TurnOk(m, i) {
      if i < |l.operations| { assert Chained(l, i) && TurnOk(l, i); } else { assert TailOk(l, key); }
    }
    forall k ensures TailOk(m, k) { assert TailOk(l, k); }
  }

  /** Only completed operations have a resolved tail, and all of those do. */
  lemma {:induction false} ResolvedIsDone(l: Locks, i: nat)
    requires LocksOk(l) && i < |l.operations|
    ensures Resolved(l.operations, i) <==> l.operations[i].phase == Done
    decreases i
  {
    assert Chained(l, i) && TurnOk(l, i);
    if l.operations[i].previous.Some? { ResolvedIsDone(l, l.operations[i].previous.value); }
  }

  /** The turn an operation gets: everybody who arrived before it for the same key has finished. */
  lemma TurnsInArrivalOrder(l: Locks, i: nat, j: nat)
    requires LocksOk(l) && MayEnter(l, i) && j < i && l.operations[j].key == l.operations[i].key
    ensures l.operations[j].phase == Done
  {
    assert Chained(l, i);
    if l.operations[i].previous.Some? {
      var p := l.operations[i].previous.value;
      ResolvedIsDone(l, p);
      assert TurnOk(l, p);
    }
  }

  lemma EnterKeeps(l: Locks, i: nat)
    requires LocksOk(l) && MayEnter(l, i)
    ensures LocksOk(Enter(l, i))
  {
    var m := Enter(l, i);
    forall j: nat | j < i && l.operations[j].key == l.operations[i].key ensures l.operations[j].phase == Done {
      TurnsInArrivalOrder(l, i, j);
    }
    forall k | 0 <= k < |m.operations| ensures Chained(m, k) && TurnOk(m, k) {
      assert Chained(l, k) && TurnOk(l, k);
    }
    forall key ensures TailOk(m, key) { assert TailOk(l, key); }
  }

  lemma ReleaseKeeps(l: Locks, i: nat)
    requires LocksOk(l) && i < |l.operations| && l.operations[i].phase == Inside
    ensures LocksOk(Release(l, i))
  {
    var m := Release(l, i);
    forall k | 0 <= k < |m.operations| ensures Chained(m, k) && TurnOk(m, k) {
      assert Chained(l, k) && TurnOk(l, k);
    }
    assert TurnOk(l, i);
    forall key ensures TailOk(m, key) { assert TailOk(l, key); }
  }

  /** At most one operation per key is inside. */
  lemma OneInside(l: Locks, i: nat, j: nat)
    requires LocksOk(l) && i < |l.operations| && j < |l.operations|
    requires l.operations[i].phase == Inside && l.operations[j].phase == Inside && l.operations[i].key == l.operations[j].key
    ensures i == j
  {
    assert TurnOk(l, i) && TurnOk(l, j);
  }

  /** No turn is lost: the earliest unfinished operation of a key is inside or may enter. */
  lemma NoLostTurn(l: Locks, i: nat)
    requires LocksOk(l) && i < |l.operations| && l.operations[i].phase != Done
    requires forall j | 0 <= j < i && l.operations[j].key == l.operations[i].key :: l.operations[j].phase == Done
    ensures l.operations[i].phase == Inside || MayEnter(l, i)
  {
    assert Chained(l, i);
    if l.operations[i].previous.Some? { ResolvedIsDone(l, l.operations[i].previous.value); }
  }

  /** When the last arrival of a key finishes, its map entry goes with it. */
  lemma NoEntryLeft(l: Locks, i: nat)
    requires LocksOk(l) && i < |l.operations| && l.operations[i].phase == Inside
    requires forall j | i < j < |l.operations| :: l.operations[j].key != l.operations[i].key
    ensures l.operations[i].key !in Release(l, i).tails
  {
    assert TailOk(l, l.operations[i].key);
  }
}

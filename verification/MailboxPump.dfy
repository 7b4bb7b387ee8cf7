/**
 * The re-entrant pump that delivers one mailbox (backend/socket.io/multiplexed.ts): requests that arrive while a
 * batch runs, retry timers, cancellation, and the table that names the pump of each mailbox.
 */
module MailboxPump {
  import opened Common
  import opened RoomLock
  import opened RoomOwnership

  /** `batches` counts the deliveries under way; the program keeps no such counter. */
  datatype Pump = Pump(socket: Sid, subscription: nat, running: bool, requested: bool, timer: bool, batches: nat)

  datatype BatchResult = Drained | Inactive | BatchLimit | Retry

  datatype Batch = Batch(key: Key, socket: Sid, subscription: nat)

  /** `log` lists the batches begun so far. */
  datatype State = State(pumps: map<Key, Pump>, log: seq<Batch>)

  datatype Event =
    | Request(key: Key, socket: Sid, subscription: nat)
    | TimerFires(key: Key)
    | BatchFinished(key: Key, result: BatchResult, owns: bool)
    | Cancel(key: Key, socket: Sid)

  function Begin(s: State, key: Key, p: Pump): (t: State)
  {
    State(s.pumps[key := p.(requested := false, batches := p.batches + 1)], s.log + [Batch(key, p.socket, p.subscription)])
  }

  function Start(s: State, key: Key, p: Pump): (t: State)
  {
    if p.running then s.(pumps := s.pumps[key := p]) else Begin(s, key, p.(running := true))
  }

  function DoRequest(s: State, key: Key, socket: Sid, subscription: nat): (t: State)
  {
    var p := if key in s.pumps then s.pumps[key] else Pump(socket, subscription, false, false, false, 0);
    Start(s, key, p.(timer := false, socket := socket, subscription := subscription, requested := true))
  }

  function DoTimer(s: State, key: Key): (t: State)
    requires key in s.pumps
  {
    Start(s, key, s.pumps[key].(timer := false, requested := true))
  }

  predicate Reschedules(result: BatchResult, owns: bool)
  {
    result == BatchLimit || (result == Retry && owns)
  }

  /** The rest of the loop after a batch, and the cleanup when it ends. */
  function DoFinish(s: State, key: Key, result: BatchResult, owns: bool): (t: State)
    requires key in s.pumps && s.pumps[key].batches > 0
  {
    var p := s.pumps[key].(batches := s.pumps[key].batches - 1);
    if p.requested then Begin(s, key, p)
    else
      var q := p.(running := false, timer := p.timer || Reschedules(result, owns));
      s.(pumps := if q.timer then s.pumps[key := q] else s.pumps - {key})
  }

  predicate Cancels(s: State, key: Key, socket: Sid)
  {
    key in s.pumps && s.pumps[key].socket == socket
  }

  function DoCancel(s: State, key: Key, socket: Sid): (t: State)
  {
    if !Cancels(s, key, socket) then s
    else if s.pumps[key].running then s.(pumps := s.pumps[key := s.pumps[key].(timer := false, requested := false)])
    else s.(pumps := s.pumps - {key})
  }

  function Next(s: State, e: Event): (t: Option<State>)
  {
    match e
    case Request(key, socket, subscription) => Some(DoRequest(s, key, socket, subscription))
    case TimerFires(key) => if key in s.pumps && s.pumps[key].timer then Some(DoTimer(s, key)) else None
    case BatchFinished(key, result, owns) =>
      if key in s.pumps && s.pumps[key].batches > 0 then Some(DoFinish(s, key, result, owns)) else None
    case Cancel(key, socket) => Some(DoCancel(s, key, socket))
  }

  /** Every pump in the table is running one batch or armed, never both, and a request waits only while it runs. */
  predicate PumpOk(p: Pump)
  {
    p.running != p.timer && (p.requested ==> p.running) && p.batches == if p.running then 1 else 0
  }

  predicate Steady(s: State)
  {
    forall key | key in s.pumps :: PumpOk(s.pumps[key])
  }

  lemma SteadyNext(s: State, e: Event)
    requires Steady(s) && Next(s, e).Some?
    ensures Steady(Next(s, e).value) && s.log <= Next(s, e).value.log
  {
  }

  function Run(events: seq<Event>): (s: Option<State>)
  {
    if events == [] then Some(State(map[], []))
    else match Run(events[..|events| - 1])
      case None => None
      case Some(s) => Next(s, events[|events| - 1])
  }

  /** At most one batch per mailbox runs at a time, in every reachable state. */
  lemma {:induction false} OneBatchPerMailbox(events: seq<Event>)
    requires Run(events).Some?
    ensures Steady(Run(events).value)
  {
    hide Next;
    if events != [] {
      OneBatchPerMailbox(events[..|events| - 1]);
      SteadyNext(Run(events[..|events| - 1]).value, events[|events| - 1]);
    }
  }

  // ---------- no wake-up is lost ----------

  /** A request is waiting behind the running batch, or a batch for it has begun since the log had length `n`. */
  predicate Answered(s: State, key: Key, n: nat)
  {
    (exists i | n <= i < |s.log| :: s.log[i].key == key) || (key in s.pumps && s.pumps[key].running && s.pumps[key].requested)
  }

  lemma AnsweredStays(s: State, e: Event, key: Key, n: nat)
    requires Steady(s) && Next(s, e).Some? && Answered(s, key, n)
    requires !(e.Cancel? && e.key == key && Cancels(s, key, e.socket)) && n <= |s.log|
    ensures Answered(Next(s, e).value, key, n)
  {
    var t := Next(s, e).value;
    if i :| n <= i < |s.log| && s.log[i].key == key {
      assert t.log[i] == s.log[i];
    } else if e.BatchFinished? && e.key == key {
      assert t.log[|s.log|].key == key;
    }
  }

  lemma RequestIsAnswered(s: State, e: Event)
    requires Steady(s) && e.Request?
    ensures Answered(Next(s, e).value, e.key, |s.log|)
  {
    var t := Next(s, e).value;
    if !(e.key in s.pumps && s.pumps[e.key].running) { assert t.log[|s.log|].key == e.key; }
  }

  lemma RunPrefix(events: seq<Event>, n: nat)
    requires n <= |events| && Run(events).Some?
    ensures Run(events[..n]).Some?
    decreases |events| - n
  {
    if n < |events| {
      RunPrefix(events, n + 1);
      assert events[..n + 1][..n] == events[..n];
    } else {
      assert events[..n] == events;
    }
  }

  predicate NotCancelled(events: seq<Event>, key: Key, i: nat, j: nat)
  {
    forall k | i < k < j && k < |events| && events[k].Cancel? && events[k].key == key && Run(events[..k]).Some? ::
      !Cancels(Run(events[..k]).value, key, events[k].socket)
  }

  lemma {:induction false} RequestStaysAnswered(events: seq<Event>, i: nat, j: nat)
    requires i < j <= |events| && Run(events).Some? && events[i].Request? && NotCancelled(events, events[i].key, i, j)
    ensures Run(events[..i]).Some? && Run(events[..j]).Some?
    ensures Answered(Run(events[..j]).value, events[i].key, |Run(events[..i]).value.log|)
    ensures |Run(events[..i]).value.log| <= |Run(events[..j]).value.log|
    decreases j
  {
    hide Next, Answered;
    RunPrefix(events, i);
    RunPrefix(events, j);
    RunPrefix(events, j - 1);
    assert events[..j][..j - 1] == events[..j - 1];
    var s := Run(events[..j - 1]).value;
    OneBatchPerMailbox(events[..j - 1]);
    SteadyNext(s, events[j - 1]);
    if j == i + 1 {
      RequestIsAnswered(s, events[i]);
    } else {
      RequestStaysAnswered(events, i, j - 1);
      AnsweredStays(s, events[j - 1], events[i].key, |Run(events[..i]).value.log|);
    }
  }

  /**
   * A wake-up is never lost: unless it is cancelled, once no batch of the mailbox is running any more a batch has
   * begun after the request.
   */
  lemma WakeupLeadsToBatch(events: seq<Event>, i: nat, j: nat)
    requires i < j <= |events| && Run(events).Some? && events[i].Request? && NotCancelled(events, events[i].key, i, j)
    requires Run(events[..j]).Some?
    requires var s := Run(events[..j]).value; events[i].key in s.pumps ==> !s.pumps[events[i].key].running
    ensures Run(events[..i]).Some?
    ensures exists n :: |Run(events[..i]).value.log| <= n < |Run(events[..j]).value.log| && Run(events[..j]).value.log[n].key == events[i].key
  {
    RequestStaysAnswered(events, i, j);
  }

  // ---------- cancellation ----------

  /** The mailbox has no pump, or one whose last batch is running. */
  predicate Winding(s: State, key: Key)
  {
    key in s.pumps ==> s.pumps[key].running && !s.pumps[key].requested && !s.pumps[key].timer
  }

  /** The event asks for the mailbox, or ends its batch in a way that arms the pump again. */
  predicate Rouses(e: Event, key: Key)
  {
    || (e.Request? && e.key == key)
    || (e.BatchFinished? && e.key == key && Reschedules(e.result, e.owns))
  }

  lemma CancelWinds(s: State, key: Key, socket: Sid)
    requires Steady(s) && Cancels(s, key, socket)
    ensures Winding(DoCancel(s, key, socket), key) && DoCancel(s, key, socket).log == s.log
  {
  }

  lemma WindingStep(s: State, e: Event, key: Key)
    requires Steady(s) && Winding(s, key) && Next(s, e).Some? && !Rouses(e, key)
    ensures var t := Next(s, e).value;
      Winding(t, key) && |s.log| <= |t.log| && t.log[..|s.log|] == s.log && forall i | |s.log| <= i < |t.log| :: t.log[i].key != key
  {
  }

  predicate NoneBegun(s: State, t: State, key: Key)
  {
    |s.log| <= |t.log| && forall i | |s.log| <= i < |t.log| :: t.log[i].key != key
  }

  lemma {:induction false} StaysWinding(events: seq<Event>, i: nat, j: nat, key: Key)
    requires i < j <= |events| && Run(events).Some? && Run(events[..i]).Some? && Run(events[..j]).Some?
    requires events[i].Cancel? && events[i].key == key && Cancels(Run(events[..i]).value, key, events[i].socket)
    requires forall k | i < k < j :: !Rouses(events[k], key)
    ensures Winding(Run(events[..j]).value, key) && NoneBegun(Run(events[..i]).value, Run(events[..j]).value, key)
    decreases j
  {
    hide Winding, Rouses, Cancels;
    RunPrefix(events, j - 1);
    assert events[..j][..j - 1] == events[..j - 1];
    OneBatchPerMailbox(events[..j - 1]);
    var s := Run(events[..j - 1]).value;
    if j == i + 1 {
      CancelWinds(s, key, events[i].socket);
    } else {
      hide Next;
      StaysWinding(events, i, j - 1, key);
      WindingStep(s, events[j - 1], key);
      var t := Run(events[..j]).value;
      forall n | |Run(events[..i]).value.log| <= n < |t.log| ensures t.log[n].key != key {
        if n < |s.log| { assert t.log[n] == t.log[..|s.log|][n]; }
      }
    }
  }

  /**
   * After a cancellation no new batch of the mailbox begins, until somebody asks for it again or its running batch ends
   * at the batch limit, or to be retried by a socket that still owns the subscription.
   */
  lemma CancelledPumpStops(events: seq<Event>, i: nat, j: nat, n: nat)
    requires i < j <= |events| && Run(events).Some? && Run(events[..i]).Some? && Run(events[..j]).Some?
    requires events[i].Cancel? && Cancels(Run(events[..i]).value, events[i].key, events[i].socket)
    requires forall k | i < k < j :: !Rouses(events[k], events[i].key)
    requires |Run(events[..i]).value.log| <= n < |Run(events[..j]).value.log|
    ensures Run(events[..j]).value.log[n].key != events[i].key
  {
    hide Winding, Rouses, Cancels, Next;
    StaysWinding(events, i, j, events[i].key);
  }

  // ---------- the pumps as objects ----------

  class MailboxPump {
    const key: Key
    var socket: Sid
    var subscription: nat
    var running: bool
    var requested: bool
    var timer: bool
    ghost var batches: nat

    constructor (key: Key, socket: Sid, subscription: nat)
      ensures this.key == key && Value() == Pump(socket, subscription, false, false, false, 0)
    {
      this.key := key;
      this.socket := socket;
      this.subscription := subscription;
      running := false;
      requested := false;
      timer := false;
      batches := 0;
    }

    ghost function Value(): (p: Pump)
      reads this
    {
      Pump(socket, subscription, running, requested, timer, batches)
    }
  }

  class MailboxPumps {
    var table: map<Key, MailboxPump>
    ghost var all: set<MailboxPump>
    ghost var log: seq<Batch>

    ghost predicate TableOk()
      reads this
    {
      forall k | k in table :: table[k].key == k && table[k] in all
    }

    ghost function View(): (s: State)
      requires TableOk()
      reads this, all
    {
      State(map k | k in table :: table[k].Value(), log)
    }

    /** Any pump that is running or armed, of all ever made, is the one in the table. */
    ghost predicate Valid()
      reads this, all
    {
      && TableOk() && Steady(View())
      && ActiveInTable()
    }

    constructor ()
      ensures Valid() && View() == State(map[], []) && all == {}
    {
      table := map[];
      all := {};
      log := [];
    }

    /** When one pump has changed and the table has not, the view differs in its entry only. */
    twostate lemma ViewUpdated(pump: MailboxPump)
      requires old(TableOk()) && table == old(table) && all == old(all) && pump.key in table && table[pump.key] == pump
      requires forall p | p in all && p != pump :: unchanged(p)
      ensures TableOk() && View() == State(old(View()).pumps[pump.key := pump.Value()], log)
    {
      assert View().pumps == old(View()).pumps[pump.key := pump.Value()];
    }

    twostate lemma ViewInserted(new pump: MailboxPump)
      requires old(TableOk()) && table == old(table)[pump.key := pump] && all == old(all) + {pump} && pump !in old(all)
      requires forall p | p in old(all) :: unchanged(p)
      ensures TableOk() && View() == State(old(View()).pumps[pump.key := pump.Value()], log)
    {
      assert View().pumps == old(View()).pumps[pump.key := pump.Value()];
    }

    twostate lemma ViewRemoved(pump: MailboxPump)
      requires old(TableOk()) && table == old(table) - {pump.key} && all == old(all)
      requires pump.key in old(table) && old(table)[pump.key] == pump
      requires forall p | p in all && p != pump :: unchanged(p)
      ensures TableOk() && View() == State(old(View()).pumps - {pump.key}, log)
    {
      assert View().pumps == old(View()).pumps - {pump.key};
    }

    /** startMailboxPump with a request pending: nothing while it runs, else it runs and begins a batch. */
    method StartPump(pump: MailboxPump)
      requires pump.requested
      modifies pump, this`log
      ensures if old(pump.running) then pump.Value() == old(pump.Value()) && log == old(log)
              else
                && pump.Value() == old(pump.Value()).(running := true, requested := false, batches := old(pump.batches) + 1)
                && log == old(log) + [Batch(pump.key, pump.socket, pump.subscription)]
    {
      if pump.running { return; }
      pump.running := true;
      pump.requested := false;
      pump.batches := pump.batches + 1;
      log := log + [Batch(pump.key, pump.socket, pump.subscription)];
    }

    ghost predicate ActiveInTable()
      reads this, all
    {
      forall p | p in all && (p.running || p.timer) :: p.key in table && table[p.key] == p
    }

    /** The pump of a mailbox, a new idle one if the table has none. */
    method PumpFor(key: Key, socket: Sid, subscription: nat) returns (pump: MailboxPump)
      requires TableOk() && ActiveInTable()
      modifies this`table, this`all
      ensures TableOk() && ActiveInTable() && old(all) <= all && fresh(all - old(all)) && log == old(log)
      ensures key in table && table[key] == pump && pump in all && (key in old(table) ==> pump == old(table)[key])
      ensures View().pumps == if key in old(View()).pumps then old(View()).pumps
                              else old(View()).pumps[key := Pump(socket, subscription, false, false, false, 0)]
    {
      if key in table {
        pump := table[key];
      } else {
        pump := new MailboxPump(key, socket, subscription);
        all := all + {pump};
        table := table[key := pump];
        ViewInserted(pump);
      }
    }

    /** Points the pump at the requesting subscription and starts it. */
    method Wake(pump: MailboxPump, socket: Sid, subscription: nat)
      modifies pump, this`log
      ensures var p := old(pump.Value()).(timer := false, socket := socket, subscription := subscription, requested := true);
        if p.running then pump.Value() == p && log == old(log)
        else pump.Value() == p.(running := true, requested := false, batches := p.batches + 1)
             && log == old(log) + [Batch(pump.key, socket, subscription)]
    {
      pump.timer := false;
      pump.socket := socket;
      pump.subscription := subscription;
      pump.requested := true;
      StartPump(pump);
    }

    method RequestDelivery(key: Key, socket: Sid, subscription: nat)
      requires Valid()
      modifies this, all
      ensures Valid() && old(all) <= all && fresh(all - old(all))
      ensures View() == DoRequest(old(View()), key, socket, subscription)
    {
      hide PumpOk, Steady;
      ghost var was := View();
      SteadyNext(was, Request(key, socket, subscription));
      var pump := PumpFor(key, socket, subscription);
      label Found:
      assert pump.Value() == View().pumps[key];
      ghost var found := pump.Value();
      Wake(pump, socket, subscription);
      ViewUpdated@Found(pump);
      assert View() == State(was.pumps[key := pump.Value()], log);
      assert View() == Start(was, key, found.(timer := false, socket := socket, subscription := subscription, requested := true));
    }

    /** The callback of a timer that was not cleared. */
    method TimerFires(pump: MailboxPump)
      requires Valid() && pump in all && pump.timer
      modifies this, all
      ensures Valid() && all == old(all)
      ensures View() == DoTimer(old(View()), pump.key)
    {
      hide PumpOk, Steady;
      SteadyNext(View(), Event.TimerFires(pump.key));
      pump.timer := false;
      pump.requested := true;
      StartPump(pump);
      ViewUpdated(pump);
    }

    /** A request arrived during the batch: the loop goes round. */
    method NextBatch(pump: MailboxPump)
      requires TableOk() && pump in all && pump.batches > 0
      modifies pump, this`log
      ensures pump.Value() == old(pump.Value()).(requested := false)
      ensures log == old(log) + [Batch(pump.key, pump.socket, pump.subscription)]
    {
      pump.batches := pump.batches - 1;
      pump.requested := false;
      pump.batches := pump.batches + 1;
      log := log + [Batch(pump.key, pump.socket, pump.subscription)];
    }

    /** No request arrived: a retry timer, or the end of the pump. */
    method EndPump(pump: MailboxPump, result: BatchResult, owns: bool)
      requires TableOk() && pump in all && pump.batches > 0
      modifies pump, this`table
      ensures pump.Value() ==
        old(pump.Value()).(running := false, timer := old(pump.timer) || Reschedules(result, owns), batches := old(pump.batches) - 1)
      ensures table == if !pump.timer && pump.key in old(table) && old(table)[pump.key] == pump then old(table) - {pump.key} else old(table)
    {
      pump.batches := pump.batches - 1;
      if result == BatchLimit || (result == Retry && owns) { pump.timer := true; }
      pump.running := false;
      if !pump.timer && pump.key in table && table[pump.key] == pump { table := table - {pump.key}; }
    }

    /** What follows a batch of a running pump. */
    method BatchFinished(pump: MailboxPump, result: BatchResult, owns: bool)
      requires Valid() && pump in all && pump.running
      modifies this, all
      ensures Valid() && all == old(all)
      ensures View() == DoFinish(old(View()), pump.key, result, owns)
    {
      assert PumpOk(View().pumps[pump.key]);
      SteadyNext(View(), Event.BatchFinished(pump.key, result, owns));
      hide PumpOk, Steady;
      if pump.requested {
        NextBatch(pump);
        ViewUpdated(pump);
      } else {
        EndPump(pump, result, owns);
        if pump.timer { ViewUpdated(pump); } else { ViewRemoved(pump); }
      }
    }

    method CancelPump(key: Key, socket: Sid)
      requires Valid()
      modifies this, all
      ensures Valid() && all == old(all)
      ensures View() == DoCancel(old(View()), key, socket)
    {
      hide PumpOk, Steady;
      SteadyNext(View(), Cancel(key, socket));
      if key !in table || table[key].socket != socket { return; }
      var pump := table[key];
      pump.timer := false;
      pump.requested := false;
      if pump.running {
        ViewUpdated(pump);
      } else {
        table := table - {key};
        ViewRemoved(pump);
      }
    }
  }
}

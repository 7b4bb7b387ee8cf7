/**
 * The loop that replays a mailbox to its recipient (deliverMuxMailboxBatch in backend/socket.io/multiplexed.ts; the
 * legacy deliverOffline in listeners.ts is the same loop without a result). Other workers act on the mailbox at
 * every await; all this loop ever does to it are steps of MailboxSystem.
 */
module Delivery {
  import opened Common
  import opened Mailbox
  import opened MailboxSystem

  const MAX_OFFLINE_PER_MAILBOX: nat := 64

  /** What came back for an emitted envelope; anything else, and silence, is `NoAnswer`. */
  datatype Answer = AcceptedAnswer | PermanentRejection(reason: string) | NoAnswer

  datatype BatchResult = Drained | Inactive | BatchLimit | Retry

  /** An envelope handed to the recipient, under the claim that was made for it. */
  datatype Emission = Emission(row: Row, claimId: string, answer: Answer)

  /** A step of the mailbox, and whether this loop took it. */
  datatype Taken = Taken(mine: bool, event: Event)

  /** How long a claim is to last. */
  type Duration = n: int | 0 < n witness 1

  /**
   * One round: its fresh claim id, what others do at its awaits, what its three authorization checks find, whether
   * the subscription is still owned locally, and the recipient's answer.
   */
  datatype Round = Round(
    claimId: string, lease: Duration, beforeClaim: seq<Event>, betweenClaim: seq<Event>, beforeCheck: seq<Event>,
    beforeCount: seq<Event>, beforeEmit: seq<Event>, whileAnswering: seq<Event>, beforeSettle: seq<Event>,
    current: bool, currentAtEmit: bool, currentAtSettle: bool, owns: bool, answer: Answer)

  function Apply(s: Sys, e: Event): (t: Sys)
  {
    match Next(s, e) case None => s case Some(t) => t
  }

  function After(s: Sys, events: seq<Taken>): (t: Sys)
  {
    if events == [] then s else Apply(After(s, events[..|events| - 1]), events[|events| - 1].event)
  }

  function Others(events: seq<Event>): (taken: seq<Taken>)
    ensures |taken| == |events| && forall i | 0 <= i < |events| :: taken[i] == Taken(false, events[i])
  {
    seq(|events|, i requires 0 <= i < |events| => Taken(false, events[i]))
  }

  /** Others have their own worker slots and their own claim ids. */
  predicate Foreign(e: Event, w: nat, ids: set<string>)
  {
    && (e.LookupHead? ==> e.w != w && e.claimId !in ids)
    && (e.ClaimCas? || e.BeginStore? || e.TryStore? || e.BeginRecord? || e.FinishRecord? || e.Abort? ==> e.w != w)
  }

  predicate AllForeign(events: seq<Event>, w: nat, ids: set<string>)
  {
    forall i | 0 <= i < |events| :: Foreign(events[i], w, ids)
  }

  predicate ForeignRound(r: Round, w: nat, ids: set<string>)
  {
    && AllForeign(r.beforeClaim, w, ids) && AllForeign(r.betweenClaim, w, ids) && AllForeign(r.beforeCheck, w, ids)
    && AllForeign(r.beforeCount, w, ids) && AllForeign(r.beforeEmit, w, ids) && AllForeign(r.whileAnswering, w, ids)
    && AllForeign(r.beforeSettle, w, ids)
  }

  /** Everything this loop may do: look the head up, claim it, and settle what it emitted as it was answered. */
  predicate Mine(e: Event, w: nat, channel: string, mailbox: string, emitted: seq<Emission>)
  {
    match e
    case LookupHead(v, c, m, _, _, _) => v == w && c == channel && m == mailbox
    case ClaimCas(v) => v == w
    case Ack(_, id, c, m, claim) =>
      exists k | 0 <= k < |emitted| ::
        emitted[k].answer == AcceptedAnswer && id == emitted[k].row.id && c == channel && m == mailbox && claim == Some(emitted[k].claimId)
    case Reject(_, id, c, m, claimId, reason) =>
      exists k | 0 <= k < |emitted| ::
        && emitted[k].answer == PermanentRejection(reason) && id == emitted[k].row.id && c == channel && m == mailbox
        && claimId == emitted[k].claimId
    case _ => false
  }

  predicate Honest(events: seq<Taken>, w: nat, channel: string, mailbox: string, emitted: seq<Emission>)
  {
    forall i | 0 <= i < |events| && events[i].mine :: Mine(events[i].event, w, channel, mailbox, emitted)
  }

  lemma {:induction false} AfterTwice(s: Sys, a: seq<Taken>, b: seq<Taken>)
    ensures After(After(s, a), b) == After(s, a + b)
  {
    hide Apply;
    if b == [] {
      assert a + b == a;
    } else {
      AfterTwice(s, a, b[..|b| - 1]);
      assert (a + b)[..|a + b| - 1] == a + b[..|b| - 1];
    }
  }

  lemma MoreEmitted(e: Event, w: nat, channel: string, mailbox: string, emitted: seq<Emission>, more: Emission)
    requires Mine(e, w, channel, mailbox, emitted)
    ensures Mine(e, w, channel, mailbox, emitted + [more])
  {
    assert forall k | 0 <= k < |emitted| :: (emitted + [more])[k] == emitted[k];
  }

  lemma StillHonest(events: seq<Taken>, w: nat, channel: string, mailbox: string, emitted: seq<Emission>, more: Emission)
    requires Honest(events, w, channel, mailbox, emitted)
    ensures Honest(events, w, channel, mailbox, emitted + [more])
  {
    forall i | 0 <= i < |events| && events[i].mine ensures Mine(events[i].event, w, channel, mailbox, emitted + [more]) {
      MoreEmitted(events[i].event, w, channel, mailbox, emitted, more);
    }
  }

  /** The loop's worker slot and its unused claim ids are left alone by the others. */
  predicate Reserved(s: Sys, w: nat, ids: set<string>)
  {
    w !in s.workers && s.claims !! ids
  }

  lemma ForeignStep(s: Sys, e: Event, w: nat, ids: set<string>)
    requires Foreign(e, w, ids)
    ensures w in Apply(s, e).workers <==> w in s.workers
    ensures w in s.workers ==> Apply(s, e).workers[w] == s.workers[w]
    ensures s.claims !! ids ==> Apply(s, e).claims !! ids
  {
    hide KeyTaken, SlotTaken, IsHead, FoundActive, ProbeSlot;
  }

  /** What a run reaches continues to be a run: the steps that are not enabled change nothing and drop out. */
  lemma {:induction false} AfterIsARun(clock: int, before: seq<Event>, events: seq<Taken>) returns (all: seq<Event>)
    requires Run(clock, before).Some?
    ensures Run(clock, all) == Some(After(Run(clock, before).value, events))
  {
    hide Next;
    if events == [] {
      all := before;
    } else {
      var e := events[|events| - 1].event;
      all := AfterIsARun(clock, before, events[..|events| - 1]);
      var s := Run(clock, all).value;
      if Next(s, e).Some? {
        Extend(clock, all, s, e, Next(s, e).value);
        all := all + [e];
      }
    }
  }

  class MailboxDatabase {
    var sys: Sys

    constructor (s: Sys)
      ensures sys == s
    {
      sys := s;
    }

    /** What others do while the loop waits. */
    method Await(events: seq<Event>, w: nat, ids: set<string>)
      requires AllForeign(events, w, ids)
      modifies this
      ensures sys == After(old(sys), Others(events))
      ensures w in sys.workers <==> w in old(sys).workers
      ensures w in old(sys).workers ==> sys.workers[w] == old(sys).workers[w]
      ensures old(sys).claims !! ids ==> sys.claims !! ids
    {
      hide Apply;
      ghost var was := sys;
      for i := 0 to |events|
        invariant sys == After(was, Others(events[..i]))
        invariant w in sys.workers <==> w in was.workers
        invariant w in was.workers ==> sys.workers[w] == was.workers[w]
        invariant was.claims !! ids ==> sys.claims !! ids
      {
        assert Others(events[..i + 1])[..i] == Others(events[..i]);
        ForeignStep(sys, events[i], w, ids);
        sys := Apply(sys, events[i]);
      }
      assert events[..|events|] == events;
    }

    /** A step of the loop itself. */
    method Take(e: Event)
      modifies this
      ensures sys == Apply(old(sys), e) && sys == After(old(sys), [Taken(true, e)])
    {
      assert After(sys, [Taken(true, e)][..0]) == sys;
      sys := Apply(sys, e);
    }

    /** claimOfflineMessage: look the head up, wait, and compare-and-swap exactly that row. */
    method ClaimHead(w: nat, channel: string, mailbox: string, r: Round, ids: set<string>)
      returns (message: Option<Row>, ghost events: seq<Taken>)
      requires Reserved(sys, w, ids + {r.claimId}) && AllForeign(r.betweenClaim, w, ids + {r.claimId}) && r.claimId !in ids
      modifies this
      ensures sys == After(old(sys), events) && Reserved(sys, w, ids)
      ensures Honest(events, w, channel, mailbox, []) && TheirsForeign(events, w, ids)
      ensures message.Some? ==>
        message.value.claimId == Some(r.claimId) && message.value.state == Active && In(message.value, channel, mailbox)
    {
      hide After, Apply;
      events := [];
      AfterNothing(sys);
      if !(exists q | q in sys.rows :: IsHead(sys.rows, channel, mailbox, sys.clock, q)) { return None, events; }
      var head :| head in sys.rows && IsHead(sys.rows, channel, mailbox, sys.clock, head);
      if Leased(sys.rows[head], sys.clock) { return None, events; }
      var leaseUntil := sys.clock + r.lease;
      var k := Claiming(channel, mailbox, r.claimId, leaseUntil, head, sys.clock, sys.nextPk);
      var lookup := LookupHead(w, channel, mailbox, r.claimId, leaseUntil, head);
      LookupStep(sys, lookup, k);
      ghost var was := sys;
      Take(lookup);
      Await(r.betweenClaim, w, ids);
      ghost var others := [Taken(true, lookup)] + Others(r.betweenClaim);
      AfterTwice(was, [Taken(true, lookup)], Others(r.betweenClaim));
      message := if CasMatches(sys.rows, k) then Some(Claimed(sys.rows[head], k.lease, k.claimId)) else None;
      CasStep(sys, w);
      Take(ClaimCas(w));
      AfterTwice(was, others, [Taken(true, ClaimCas(w))]);
      events := others + [Taken(true, ClaimCas(w))];
    }

    /** ackOfflineMessage with a claim id. */
    method AckClaim(id: string, channel: string, mailbox: string, claimId: string) returns (removed: bool, ghost events: seq<Taken>)
      modifies this
      ensures sys == After(old(sys), events) && sys.workers == old(sys).workers && sys.claims == old(sys).claims
      ensures forall i | 0 <= i < |events| ::
        events[i].mine && events[i].event.Ack? && events[i].event == Ack(events[i].event.pk, id, channel, mailbox, Some(claimId))
      ensures removed <==> exists q :: q in old(sys).rows && AckMatches(old(sys).rows[q], id, channel, mailbox, Some(claimId))
    {
      events := [];
      AfterNothing(sys);
      removed := exists q | q in sys.rows :: AckMatches(sys.rows[q], id, channel, mailbox, Some(claimId));
      if removed {
        var q :| q in sys.rows && AckMatches(sys.rows[q], id, channel, mailbox, Some(claimId));
        Take(Ack(q, id, channel, mailbox, Some(claimId)));
        events := [Taken(true, Ack(q, id, channel, mailbox, Some(claimId)))];
      }
    }

    /** rejectOfflineMessage: true unless the claim is stale. */
    method RejectClaim(id: string, channel: string, mailbox: string, claimId: string, reason: string)
      returns (settled: bool, ghost events: seq<Taken>)
      modifies this
      ensures sys == After(old(sys), events) && sys.workers == old(sys).workers && sys.claims == old(sys).claims
      ensures forall i | 0 <= i < |events| ::
        && events[i].mine && events[i].event.Reject?
        && events[i].event == Reject(events[i].event.pk, id, channel, mailbox, claimId, reason)
    {
      events := [];
      AfterNothing(sys);
      if exists q | q in sys.rows :: sys.rows[q].state == Active && AckMatches(sys.rows[q], id, channel, mailbox, Some(claimId)) {
        var q :| q in sys.rows && sys.rows[q].state == Active && AckMatches(sys.rows[q], id, channel, mailbox, Some(claimId));
        Take(Reject(q, id, channel, mailbox, claimId, reason));
        events := [Taken(true, Reject(q, id, channel, mailbox, claimId, reason))];
        return true, events;
      }
      settled := exists q | q in sys.rows :: RejectedBy(sys.rows[q], id, channel, mailbox, claimId);
    }

    /** Tells a drained mailbox from one whose head is leased or has just changed. */
    method WhyNothing(w: nat, channel: string, mailbox: string, r: Round, ids: set<string>)
      returns (outcome: BatchResult, ghost events: seq<Taken>)
      requires ForeignRound(r, w, ids) && Reserved(sys, w, ids)
      modifies this
      ensures sys == After(old(sys), events) && Reserved(sys, w, ids) && NoneMine(events) && TheirsForeign(events, w, ids)
      ensures outcome == Drained || outcome == Retry
      ensures outcome == Drained ==> NonePending(sys.rows, channel, mailbox, sys.clock)
    {
      hide After;
      ghost var was := sys;
      Await(r.beforeCheck, w, ids);
      events := Others(r.beforeCheck);
      if exists q | q in sys.rows :: IsHead(sys.rows, channel, mailbox, sys.clock, q) && Leased(sys.rows[q], sys.clock) {
        return Retry, events;
      }
      Await(r.beforeCount, w, ids);
      AfterTwice(was, events, Others(r.beforeCount));
      events := events + Others(r.beforeCount);
      outcome := if exists q | q in sys.rows :: Pending(sys.rows[q], channel, mailbox, sys.clock) then Retry else Drained;
    }

    /** Acts on the recipient's answer, after one more authorization check. */
    method Settle(w: nat, channel: string, mailbox: string, r: Round, ids: set<string>, m: Emission)
      returns (outcome: Option<BatchResult>, ghost events: seq<Taken>)
      requires ForeignRound(r, w, ids) && Reserved(sys, w, ids) && m.answer == r.answer
      modifies this
      ensures sys == After(old(sys), events) && Reserved(sys, w, ids) && TheirsForeign(events, w, ids)
      ensures Honest(events, w, channel, mailbox, [m])
      ensures outcome.None? ==> r.answer != NoAnswer
      ensures outcome != Some(Drained) && outcome != Some(BatchLimit)
    {
      hide After;
      events := [];
      AfterNothing(sys);
      if r.answer.NoAnswer? { return Some(Retry), events; }
      ghost var was := sys;
      Await(r.beforeSettle, w, ids);
      events := Others(r.beforeSettle);
      if !r.currentAtSettle { return Some(if r.owns then Retry else Inactive), events; }
      ghost var mine: seq<Taken>;
      var settled: bool;
      if r.answer.PermanentRejection? {
        settled, mine := RejectClaim(m.row.id, channel, mailbox, m.claimId, r.answer.reason);
      } else {
        settled, mine := AckClaim(m.row.id, channel, mailbox, m.claimId);
      }
      AfterTwice(was, events, mine);
      assert [m][0] == m;
      events := events + mine;
      outcome := if settled then None else Some(Retry);
    }

    /** One round: authorize, claim, authorize again, emit, and settle. */
    method DeliverOne(w: nat, channel: string, mailbox: string, r: Round, ids: set<string>)
      returns (outcome: Option<BatchResult>, emission: Option<Emission>, ghost events: seq<Taken>)
      requires ForeignRound(r, w, ids + {r.claimId}) && Reserved(sys, w, ids + {r.claimId}) && r.claimId !in ids
      modifies this
      ensures sys == After(old(sys), events) && Reserved(sys, w, ids) && TheirsForeign(events, w, ids)
      ensures Honest(events, w, channel, mailbox, if emission.Some? then [emission.value] else [])
      ensures emission.Some? ==> Claimed1(emission.value, r, channel, mailbox)
      ensures outcome.None? ==> emission.Some? && r.answer != NoAnswer
      ensures outcome != Some(BatchLimit)
      ensures outcome == Some(Drained) ==> emission.None? && NonePending(sys.rows, channel, mailbox, sys.clock)
    {
      hide After, NonePending, Mine;
      ghost var was := sys;
      emission := None;
      Await(r.beforeClaim, w, ids + {r.claimId});
      events := Others(r.beforeClaim);
      if !r.current { return Some(Inactive), emission, events; }
      var message, claim := ClaimHead(w, channel, mailbox, r, ids);
      AfterTwice(was, events, claim);
      events := events + claim;
      if message.None? {
        var why, rest := WhyNothing(w, channel, mailbox, r, ids);
        AfterTwice(was, events, rest);
        return Some(why), emission, events + rest;
      }
      Await(r.beforeEmit, w, ids);
      AfterTwice(was, events, Others(r.beforeEmit));
      events := events + Others(r.beforeEmit);
      if !r.currentAtEmit { return Some(if r.owns then Retry else Inactive), emission, events; }
      var m := Emission(message.value, r.claimId, r.answer);
      emission := Some(m);
      Await(r.whileAnswering, w, ids);
      AfterTwice(was, events, Others(r.whileAnswering));
      events := events + Others(r.whileAnswering);
      ghost var rest: seq<Taken>;
      outcome, rest := Settle(w, channel, mailbox, r, ids, m);
      AfterTwice(was, events, rest);
      StillHonest(events, w, channel, mailbox, [], m);
      assert [] + [m] == [m];
      events := events + rest;
    }

    /**
     * The batch. Whatever others do at its awaits, all it does to the mailbox is claim heads and settle what it
     * emitted: a row is removed only under a claim whose envelope the recipient accepted, and made terminal only
     * under one it rejected for good. "Drained" means that nothing was pending when it looked last.
     */
    method DeliverMailboxBatch(w: nat, channel: string, mailbox: string, rounds: seq<Round>)
      returns (result: BatchResult, emitted: seq<Emission>, ghost events: seq<Taken>)
      requires |rounds| == MAX_OFFLINE_PER_MAILBOX && Reserved(sys, w, ClaimIds(rounds, 0))
      requires forall i | 0 <= i < |rounds| :: ForeignRound(rounds[i], w, ClaimIds(rounds, 0))
      requires forall i, j | 0 <= i < j < |rounds| :: rounds[i].claimId != rounds[j].claimId
      modifies this
      ensures sys == After(old(sys), events)
      ensures Honest(events, w, channel, mailbox, emitted) && TheirsForeign(events, w, {})
      ensures |emitted| <= |rounds| && forall k | 0 <= k < |emitted| :: Claimed1(emitted[k], rounds[k], channel, mailbox)
      ensures forall k | 0 <= k < |emitted| - 1 :: emitted[k].answer != NoAnswer
      ensures result == Drained ==> NonePending(sys.rows, channel, mailbox, sys.clock)
      ensures result == BatchLimit ==> |emitted| == |rounds| && forall k | 0 <= k < |emitted| :: emitted[k].answer != NoAnswer
    {
      hide After, NonePending, Mine, Foreign;
      ghost var was := sys;
      emitted, events := [], [];
      AfterNothing(sys);
      for n := 0 to MAX_OFFLINE_PER_MAILBOX
        invariant sys == After(was, events) && Reserved(sys, w, ClaimIds(rounds, n))
        invariant Honest(events, w, channel, mailbox, emitted) && TheirsForeign(events, w, {})
        invariant |emitted| == n && forall k | 0 <= k < n :: Claimed1(emitted[k], rounds[k], channel, mailbox) && emitted[k].answer != NoAnswer
      {
        ClaimIdsStep(rounds, n);
        FewerIds(rounds[n], w, ClaimIds(rounds, 0), ClaimIds(rounds, n));
        var outcome, emission, more := DeliverOne(w, channel, mailbox, rounds[n], ClaimIds(rounds, n + 1));
        AfterTwice(was, events, more);
        HonestJoin(events, more, w, channel, mailbox, emitted, if emission.Some? then [emission.value] else []);
        NoIds(more, w, ClaimIds(rounds, n + 1));
        events := events + more;
        assert emitted + [] == emitted;
        if emission.Some? { emitted := emitted + [emission.value]; }
        if outcome.Some? { return outcome.value, emitted, events; }
      }
      return BatchLimit, emitted, events;
    }
  }

  /** The claim ids of the rounds from `n` on. */
  function ClaimIds(rounds: seq<Round>, n: nat): (ids: set<string>)
    requires n <= |rounds|
    ensures forall i | n <= i < |rounds| :: rounds[i].claimId in ids
    ensures forall id | id in ids :: exists i | n <= i < |rounds| :: rounds[i].claimId == id
  {
    set i | n <= i < |rounds| :: rounds[i].claimId
  }

  lemma ClaimIdsStep(rounds: seq<Round>, n: nat)
    requires n < |rounds| && forall i, j | 0 <= i < j < |rounds| :: rounds[i].claimId != rounds[j].claimId
    ensures ClaimIds(rounds, n) == ClaimIds(rounds, n + 1) + {rounds[n].claimId} && rounds[n].claimId !in ClaimIds(rounds, n + 1)
    ensures ClaimIds(rounds, n) <= ClaimIds(rounds, 0)
  {
  }

  lemma FewerIds(r: Round, w: nat, ids: set<string>, fewer: set<string>)
    requires ForeignRound(r, w, ids) && fewer <= ids
    ensures ForeignRound(r, w, fewer)
  {
  }

  lemma NoIds(events: seq<Taken>, w: nat, ids: set<string>)
    requires TheirsForeign(events, w, ids)
    ensures TheirsForeign(events, w, {})
  {
  }

  lemma HonestJoin(a: seq<Taken>, b: seq<Taken>, w: nat, channel: string, mailbox: string, x: seq<Emission>, y: seq<Emission>)
    requires Honest(a, w, channel, mailbox, x) && Honest(b, w, channel, mailbox, y)
    ensures Honest(a + b, w, channel, mailbox, x + y)
  {
    hide Mine;
    forall i | 0 <= i < |a + b| && (a + b)[i].mine ensures Mine((a + b)[i].event, w, channel, mailbox, x + y) {
      MineOfMore((a + b)[i].event, w, channel, mailbox, x, y);
    }
  }

  lemma MineOfMore(e: Event, w: nat, channel: string, mailbox: string, x: seq<Emission>, y: seq<Emission>)
    requires Mine(e, w, channel, mailbox, x) || Mine(e, w, channel, mailbox, y)
    ensures Mine(e, w, channel, mailbox, x + y)
  {
    assert forall k | 0 <= k < |x| :: (x + y)[k] == x[k];
    assert forall k | 0 <= k < |y| :: (x + y)[|x| + k] == y[k];
  }

  // ---------- order ----------

  /** A later step never makes a row pending again. */
  lemma StaysSettled(s: Sys, e: Event, q: nat, channel: string, mailbox: string)
    requires Inv(s) && q in s.rows && q in Apply(s, e).rows && Pending(Apply(s, e).rows[q], channel, mailbox, Apply(s, e).clock)
    ensures Pending(s.rows[q], channel, mailbox, s.clock)
    ensures Apply(s, e).rows[q].timestamp == s.rows[q].timestamp && Apply(s, e).rows[q].pk == s.rows[q].pk
  {
    hide Next, Inv;
    if Next(s, e).Some? {
      KeyBound(s, q);
      StepConserves(s, e, q);
      ClockGrows(s, e);
    }
  }

  lemma {:induction false} WasPending(s: Sys, events: seq<Taken>, q: nat, channel: string, mailbox: string)
    requires Inv(s) && q in s.rows && q in After(s, events).rows
    requires Pending(After(s, events).rows[q], channel, mailbox, After(s, events).clock)
    ensures Inv(After(s, events)) && Pending(s.rows[q], channel, mailbox, s.clock)
    ensures After(s, events).rows[q].timestamp == s.rows[q].timestamp && After(s, events).rows[q].pk == s.rows[q].pk
  {
    hide Inv, Apply, Pending;
    if events != [] {
      var n := |events| - 1;
      var u := After(s, events[..n]);
      InvAfter(s, events[..n]);
      InvAfter(s, events);
      KeysNeverReturn(s, events[..n], events[n].event, q);
      StaysSettled(u, events[n].event, q, channel, mailbox);
      WasPending(s, events[..n], q, channel, mailbox);
    }
  }

  lemma {:induction false} InvAfter(s: Sys, events: seq<Taken>)
    requires Inv(s)
    ensures Inv(After(s, events)) && s.nextPk <= After(s, events).nextPk
  {
    hide Inv, Next;
    if events != [] {
      InvAfter(s, events[..|events| - 1]);
      var u, e := After(s, events[..|events| - 1]), events[|events| - 1].event;
      if Next(u, e).Some? {
        InvNext(u, e);
        PkGrows(u, e);
      }
    }
  }

  lemma KeysNeverReturn(s: Sys, events: seq<Taken>, e: Event, q: nat)
    requires Inv(s) && q in s.rows && q in Apply(After(s, events), e).rows
    ensures q in After(s, events).rows
  {
    hide Inv, Next;
    InvAfter(s, events);
    KeyBound(s, q);
    var u := After(s, events);
    if Next(u, e).Some? { NewKeysAreFresh(u, e, q); }
  }

  /**
   * First in, first out: however the mailbox changes in between, a row that was already there when an earlier head
   * was taken comes up as a head only after it in delivery order.
   */
  lemma HeadsComeInOrder(s: Sys, events: seq<Taken>, channel: string, mailbox: string, first: nat, second: nat)
    requires Inv(s) && IsHead(s.rows, channel, mailbox, s.clock, first)
    requires second in s.rows && second != first
    requires var t := After(s, events); IsHead(t.rows, channel, mailbox, t.clock, second)
    ensures Before(s.rows[first], After(s, events).rows[second])
  {
    WasPending(s, events, second, channel, mailbox);
    hide Inv, After;
  }

  predicate NoneMine(events: seq<Taken>)
  {
    forall i | 0 <= i < |events| :: !events[i].mine
  }

  predicate TheirsForeign(events: seq<Taken>, w: nat, ids: set<string>)
  {
    forall i | 0 <= i < |events| && !events[i].mine :: Foreign(events[i].event, w, ids)
  }

  /** The emitted row was active, in this mailbox, and had just been claimed with the id of the round. */
  predicate Claimed1(m: Emission, r: Round, channel: string, mailbox: string)
  {
    && m.claimId == r.claimId && m.answer == r.answer
    && m.row.claimId == Some(r.claimId) && m.row.state == Active && In(m.row, channel, mailbox)
  }

  lemma AfterNothing(s: Sys)
    ensures After(s, []) == s
  {
  }

  lemma LookupStep(s: Sys, e: Event, k: Worker)
    requires e.LookupHead? && e.w !in s.workers && e.claimId !in s.claims && e.lease > s.clock
    requires IsHead(s.rows, e.channel, e.mailbox, s.clock, e.head) && !Leased(s.rows[e.head], s.clock)
    requires k == Claiming(e.channel, e.mailbox, e.claimId, e.lease, e.head, s.clock, s.nextPk)
    ensures Apply(s, e) == s.(claims := s.claims + {e.claimId}, workers := s.workers[e.w := k])
  {
  }

  lemma CasStep(s: Sys, w: nat)
    requires w in s.workers && s.workers[w].Claiming?
    ensures w !in Apply(s, ClaimCas(w)).workers && Apply(s, ClaimCas(w)).claims == s.claims
  {
  }
}

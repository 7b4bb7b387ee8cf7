/**
 * The mailbox in the database (backend/db/index.ts): racing workers that look the head up first and
 * compare-and-swap it later, slot probing under a unique index, terminal rejections and TTL deletion.
 */
module MailboxSystem {
  import opened Common
  import opened Mailbox

  const SLOTS: nat := 64

  /**
   * Where a multi-step operation waits. A claim makes one clock reading, `at`, and its callers ask for a lease that ends
   * some time after that; `seen` bounds the keys of the rows that existed when it looked the head up.
   */
  datatype Worker =
    | Claiming(channel: string, mailbox: string, claimId: string, lease: int, head: nat, at: int, seen: nat)
    | Storing(letter: Letter, start: nat, offset: nat)
    | Recording(letter: Letter, reason: string, found: Option<nat>)

  datatype Sys = Sys(clock: int, rows: Contents, nextPk: nat, claims: set<string>, workers: map<nat, Worker>)

  datatype Event =
    | Tick(elapsed: nat)
    | LookupHead(w: nat, channel: string, mailbox: string, claimId: string, lease: int, head: nat)
    | ClaimCas(w: nat)
    | Ack(pk: nat, id: string, channel: string, mailbox: string, claim: Option<string>)
    | Reject(pk: nat, id: string, channel: string, mailbox: string, claimId: string, reason: string)
    | BeginStore(w: nat, letter: Letter, start: nat)
    | TryStore(w: nat)
    | BeginRecord(w: nat, letter: Letter, reason: string, found: Option<nat>)
    | FinishRecord(w: nat)
    | TtlDelete(pk: nat)
    | Abort(w: nat)

  predicate KeyTaken(m: Contents, dedupeKey: string)
  {
    exists q | q in m :: m[q].dedupeKey == dedupeKey
  }

  /** The unique (channel, mailbox, slot) index covers active rows only. */
  predicate SlotTaken(m: Contents, channel: string, mailbox: string, slot: nat)
  {
    exists q | q in m :: m[q].state == Active && In(m[q], channel, mailbox) && m[q].slot == Some(slot)
  }

  function ProbeSlot(start: nat, offset: nat): (slot: nat)
    ensures slot < SLOTS
  {
    (start + offset) % SLOTS
  }

  /** The filter of the claiming update, with the clock reading made before the lookup. */
  predicate CasMatches(m: Contents, k: Worker)
    requires k.Claiming?
  {
    k.head in m && Pending(m[k.head], k.channel, k.mailbox, k.at) && !Leased(m[k.head], k.at)
  }

  function Drop(s: Sys, w: nat): (t: Sys)
  {
    s.(workers := s.workers - {w})
  }

  function DoTryStore(s: Sys, w: nat): (t: Sys)
    requires w in s.workers && s.workers[w].Storing?
  {
    var k := s.workers[w];
    var slot := ProbeSlot(k.start, k.offset);
    if KeyTaken(s.rows, k.letter.dedupeKey) then Drop(s, w)
    else if SlotTaken(s.rows, k.letter.channel, k.letter.mailbox, slot) then
      if k.offset + 1 < SLOTS then s.(workers := s.workers[w := k.(offset := k.offset + 1)]) else Drop(s, w)
    else
      Drop(s, w).(rows := s.rows[s.nextPk := NewRow(s.nextPk, k.letter, Some(slot))], nextPk := s.nextPk + 1)
  }

  /** The update by primary and dedupe key does not test the state again; the insert fails on a taken dedupe key. */
  function DoFinishRecord(s: Sys, w: nat): (t: Sys)
    requires w in s.workers && s.workers[w].Recording?
  {
    var k := s.workers[w];
    match k.found
    case Some(q) =>
      if q in s.rows && s.rows[q].dedupeKey == k.letter.dedupeKey then
        Drop(s, w).(rows := s.rows[q := Terminated(s.rows[q], k.reason, s.clock, s.rows[q].terminalClaimId)])
      else Drop(s, w)
    case None =>
      if KeyTaken(s.rows, k.letter.dedupeKey) then Drop(s, w)
      else Drop(s, w).(rows := s.rows[s.nextPk := TerminalRow(s.nextPk, k.letter, k.reason, s.clock)], nextPk := s.nextPk + 1)
  }

  /** What the lookup of a recording finds, unless it is terminal already: its active row, or no row at all. */
  predicate FoundActive(m: Contents, dedupeKey: string, found: Option<nat>)
  {
    match found
    case Some(q) => q in m && m[q].dedupeKey == dedupeKey && m[q].state == Active
    case None => !KeyTaken(m, dedupeKey)
  }

  function Next(s: Sys, e: Event): (t: Option<Sys>)
  {
    match e
    case Tick(elapsed) => Some(s.(clock := s.clock + elapsed))
    case LookupHead(w, channel, mailbox, claimId, lease, head) =>
      if w in s.workers || claimId in s.claims || lease <= s.clock || !IsHead(s.rows, channel, mailbox, s.clock, head) then None
      else if Leased(s.rows[head], s.clock) then Some(s)
      else Some(s.(claims := s.claims + {claimId},
                   workers := s.workers[w := Claiming(channel, mailbox, claimId, lease, head, s.clock, s.nextPk)]))
    case ClaimCas(w) =>
      if w !in s.workers || !s.workers[w].Claiming? then None
      else
        var k := s.workers[w];
        if CasMatches(s.rows, k)
        then Some(Drop(s, w).(rows := s.rows[k.head := Claimed(s.rows[k.head], k.lease, k.claimId)]))
        else Some(Drop(s, w))
    case Ack(pk, id, channel, mailbox, claim) =>
      if pk in s.rows && AckMatches(s.rows[pk], id, channel, mailbox, claim) then Some(s.(rows := s.rows - {pk})) else None
    case Reject(pk, id, channel, mailbox, claimId, reason) =>
      if pk in s.rows && s.rows[pk].state == Active && AckMatches(s.rows[pk], id, channel, mailbox, Some(claimId))
      then Some(s.(rows := s.rows[pk := Terminated(s.rows[pk], reason, s.clock, Some(claimId))])) else None
    case BeginStore(w, letter, start) =>
      if w in s.workers || KeyTaken(s.rows, letter.dedupeKey) then None
      else Some(s.(workers := s.workers[w := Storing(letter, start, 0)]))
    case TryStore(w) =>
      if w in s.workers && s.workers[w].Storing? then Some(DoTryStore(s, w)) else None
    case BeginRecord(w, letter, reason, found) =>
      if w in s.workers then None
      else if FoundActive(s.rows, letter.dedupeKey, found)
      then Some(s.(workers := s.workers[w := Recording(letter, reason, found)])) else None
    case FinishRecord(w) =>
      if w in s.workers && s.workers[w].Recording? then Some(DoFinishRecord(s, w)) else None
    case TtlDelete(pk) =>
      if pk in s.rows && s.rows[pk].expiresAt <= s.clock then Some(s.(rows := s.rows - {pk})) else None
    case Abort(w) => Some(Drop(s, w))
  }

  function Init(clock: int): (s: Sys)
  {
    Sys(clock, map[], 0, {}, map[])
  }

  function Run(clock: int, events: seq<Event>): (s: Option<Sys>)
  {
    if events == [] then Some(Init(clock))
    else match Run(clock, events[..|events| - 1])
      case None => None
      case Some(s) => Next(s, events[|events| - 1])
  }

  // ---------- what always holds ----------

  predicate KeysUnique(s: Sys)
  {
    && (forall q | q in s.rows :: s.rows[q].pk == q && q < s.nextPk)
    && (forall q, r | q in s.rows && r in s.rows && q != r :: s.rows[q].dedupeKey != s.rows[r].dedupeKey)
  }

  predicate SlotsUnique(m: Contents)
  {
    && (forall q | q in m && m[q].state == Active :: m[q].slot.Some? && m[q].slot.value < SLOTS)
    && (forall q, r | q in m && r in m && q != r && m[q].state == Active && m[r].state == Active && SameBox(m[q], m[r]) ::
          m[q].slot != m[r].slot)
  }

  predicate ClaimsKnown(s: Sys)
  {
    && (forall q | q in s.rows && s.rows[q].claimId.Some? :: s.rows[q].claimId.value in s.claims && s.rows[q].state == Active)
    && (forall w | w in s.workers && s.workers[w].Claiming? :: s.workers[w].claimId in s.claims)
  }

  /** A claim id is held by at most one row, and never by a terminal one. */
  predicate ClaimsUnique(s: Sys)
  {
    && ClaimsKnown(s)
    && (forall q, r | q in s.rows && r in s.rows && q != r && s.rows[q].claimId.Some? :: s.rows[q].claimId != s.rows[r].claimId)
    && (forall q, w | q in s.rows && w in s.workers && s.workers[w].Claiming? ::
          s.rows[q].claimId != Some(s.workers[w].claimId))
    && (forall v, w | v in s.workers && w in s.workers && v != w && s.workers[v].Claiming? && s.workers[w].Claiming? ::
          s.workers[v].claimId != s.workers[w].claimId)
  }

  predicate Inv(s: Sys)
  {
    KeysUnique(s) && SlotsUnique(s.rows) && ClaimsUnique(s)
  }

  /** What may happen to one row in one step. */
  predicate RowStep(s: Sys, e: Event, r: Row, t: Sys)
  {
    if r.pk in t.rows then RowKept(s, e, r, t.rows[r.pk]) else Removes(s, e, r)
  }

  /** The row leaves: acknowledged under its latest claim, or without one while it holds none, or expired. */
  predicate Removes(s: Sys, e: Event, r: Row)
  {
    || (e.Ack? && e.pk == r.pk && e.id == r.id && In(r, e.channel, e.mailbox) && e.claim == r.claimId)
    || (e.TtlDelete? && e.pk == r.pk && r.expiresAt <= s.clock)
  }

  /** The row becomes terminal: rejected under its latest claim, or recorded by its dedupe key. */
  predicate Terminates(s: Sys, e: Event, r: Row)
  {
    || (e.Reject? && e.id == r.id && In(r, e.channel, e.mailbox) && r.claimId == Some(e.claimId))
    || (e.FinishRecord? && e.w in s.workers && s.workers[e.w].Recording? && s.workers[e.w].found == Some(r.pk)
        && s.workers[e.w].letter.dedupeKey == r.dedupeKey)
  }

  predicate RowKept(s: Sys, e: Event, r: Row, n: Row)
  {
    && n.pk == r.pk && n.id == r.id && n.dedupeKey == r.dedupeKey && SameBox(n, r)
    && n.timestamp == r.timestamp && n.expiresAt == r.expiresAt
    && (r.state == Rejected ==> n.state == Rejected && n.claimId.None? && n.deliveryAttempts == r.deliveryAttempts)
    && (n.state == Active ==> n.envelope == r.envelope && n.slot == r.slot)
    && (n.state == Active && n != r ==>
          && e.ClaimCas? && e.w in s.workers && s.workers[e.w].Claiming? && s.workers[e.w].head == r.pk
          && CasMatches(s.rows, s.workers[e.w]) && n == Claimed(r, s.workers[e.w].lease, s.workers[e.w].claimId))
    && (n.state == Rejected && r.state == Active ==> Terminates(s, e, r))
    && (e.Ack? || e.Reject? ==> n == r || (e.Reject? && r.claimId == Some(e.claimId)))
  }

  /** A row that a step creates takes the next key, and its dedupe key and slot were free. */
  predicate RowNew(s: Sys, e: Event, q: nat, n: Row)
  {
    && (e.TryStore? || e.FinishRecord?) && q == s.nextPk && e.w in s.workers
    && var k := s.workers[e.w];
      if e.TryStore? then
        && k.Storing? && !KeyTaken(s.rows, k.letter.dedupeKey)
        && !SlotTaken(s.rows, k.letter.channel, k.letter.mailbox, ProbeSlot(k.start, k.offset))
        && n == NewRow(q, k.letter, Some(ProbeSlot(k.start, k.offset)))
      else
        && k.Recording? && !KeyTaken(s.rows, k.letter.dedupeKey) && n == TerminalRow(q, k.letter, k.reason, s.clock)
  }

  predicate Touches(e: Event)
  {
    e.ClaimCas? || e.Reject? || e.FinishRecord?
  }

  lemma RowSame(s: Sys, e: Event, q: nat)
    requires KeysUnique(s) && Next(s, e).Some? && q in Next(s, e).value.rows && q in s.rows && !Touches(e)
    ensures Next(s, e).value.rows[q] == s.rows[q]
  {
    hide KeyTaken, SlotTaken, ProbeSlot, FoundActive, IsHead;
  }

  lemma RowRecorded(s: Sys, w: nat, q: nat)
    requires KeysUnique(s) && ClaimsKnown(s) && w in s.workers && s.workers[w].Recording?
    requires q in s.rows && q in DoFinishRecord(s, w).rows
    ensures RowKept(s, FinishRecord(w), s.rows[q], DoFinishRecord(s, w).rows[q])
  {
    hide KeyTaken;
  }

  lemma RowTouched(s: Sys, e: Event, q: nat)
    requires KeysUnique(s) && ClaimsKnown(s) && Next(s, e).Some? && q in Next(s, e).value.rows && q in s.rows && Touches(e)
    ensures RowKept(s, e, s.rows[q], Next(s, e).value.rows[q])
  {
    hide KeyTaken, SlotTaken, ProbeSlot, FoundActive, IsHead, DoFinishRecord;
    if e.FinishRecord? {
      hide KeysUnique, ClaimsKnown, RowKept;
      RowRecorded(s, e.w, q);
    }
  }

  lemma RowOrigin(s: Sys, e: Event, q: nat)
    requires KeysUnique(s) && ClaimsKnown(s) && Next(s, e).Some? && q in Next(s, e).value.rows && q in s.rows
    ensures RowKept(s, e, s.rows[q], Next(s, e).value.rows[q])
  {
    hide Next;
    if Touches(e) { RowTouched(s, e, q); } else { RowSame(s, e, q); }
  }

  lemma RowBirth(s: Sys, e: Event, q: nat)
    requires Next(s, e).Some? && q in Next(s, e).value.rows && q !in s.rows
    ensures RowNew(s, e, q, Next(s, e).value.rows[q]) && Next(s, e).value.nextPk == s.nextPk + 1
  {
    hide KeyTaken, SlotTaken, ProbeSlot, FoundActive, IsHead;
  }

  lemma RowDeath(s: Sys, e: Event, q: nat)
    requires Next(s, e).Some? && q in s.rows && q !in Next(s, e).value.rows
    ensures (e.Ack? && e.pk == q && AckMatches(s.rows[q], e.id, e.channel, e.mailbox, e.claim))
      || (e.TtlDelete? && e.pk == q && s.rows[q].expiresAt <= s.clock)
  {
    hide KeyTaken, SlotTaken, ProbeSlot, FoundActive, IsHead;
  }

  /** Where a claim in a row comes from: the row held it already, or the worker whose update just landed did. */
  lemma RowClaimOrigin(s: Sys, e: Event, q: nat)
    requires Next(s, e).Some? && q in Next(s, e).value.rows && Next(s, e).value.rows[q].claimId.Some?
    ensures var t := Next(s, e).value;
      || (q in s.rows && s.rows[q].claimId == t.rows[q].claimId && (s.rows[q].state == Active ==> t.rows[q].state == Active))
      || (e.ClaimCas? && e.w in s.workers && s.workers[e.w].Claiming? && s.workers[e.w].head == q && q in s.rows
          && t.rows[q].claimId == Some(s.workers[e.w].claimId) && t.rows[q].state == Active && e.w !in t.workers)
  {
  }

  /** Where a claiming worker comes from: it was claiming already, or has just looked the head up. */
  lemma WorkerOrigin(s: Sys, e: Event, w: nat)
    requires Next(s, e).Some? && w in Next(s, e).value.workers && Next(s, e).value.workers[w].Claiming?
    ensures var t := Next(s, e).value;
      var k := t.workers[w];
      || (w in s.workers && s.workers[w] == k && !(e.ClaimCas? && e.w == w))
      || (e.LookupHead? && e.w == w && k.claimId == e.claimId && e.claimId !in s.claims && e.claimId in t.claims
          && k.at == s.clock && k.at < k.lease && k.seen == s.nextPk && t.rows == s.rows
          && IsHead(s.rows, k.channel, k.mailbox, s.clock, k.head))
  {
  }

  lemma ClockGrows(s: Sys, e: Event)
    requires Next(s, e).Some?
    ensures s.clock <= Next(s, e).value.clock && s.claims <= Next(s, e).value.claims
  {
  }

  lemma ClaimsRegistered(s: Sys, e: Event)
    requires ClaimsUnique(s) && Next(s, e).Some?
    ensures ClaimsKnown(Next(s, e).value)
  {
    hide Next;
    var t := Next(s, e).value;
    ClockGrows(s, e);
    forall q | q in t.rows && t.rows[q].claimId.Some?
      ensures t.rows[q].claimId.value in t.claims && t.rows[q].state == Active
    {
      RowClaimOrigin(s, e, q);
    }
    forall w | w in t.workers && t.workers[w].Claiming? ensures t.workers[w].claimId in t.claims {
      WorkerOrigin(s, e, w);
    }
  }

  lemma InvClaims(s: Sys, e: Event)
    requires ClaimsUnique(s) && Next(s, e).Some?
    ensures ClaimsUnique(Next(s, e).value)
  {
    hide Next;
    var t := Next(s, e).value;
    ClaimsRegistered(s, e);
    forall q, r | q in t.rows && r in t.rows && q != r && t.rows[q].claimId.Some? ensures t.rows[q].claimId != t.rows[r].claimId {
      RowClaimOrigin(s, e, q);
      if t.rows[r].claimId.Some? { RowClaimOrigin(s, e, r); }
    }
    forall q, w | q in t.rows && w in t.workers && t.workers[w].Claiming? ensures t.rows[q].claimId != Some(t.workers[w].claimId) {
      WorkerOrigin(s, e, w);
      if t.rows[q].claimId.Some? { RowClaimOrigin(s, e, q); }
    }
    forall v, w | v in t.workers && w in t.workers && v != w && t.workers[v].Claiming? && t.workers[w].Claiming?
      ensures t.workers[v].claimId != t.workers[w].claimId
    {
      WorkerOrigin(s, e, v);
      WorkerOrigin(s, e, w);
    }
  }

  lemma PkGrows(s: Sys, e: Event)
    requires Next(s, e).Some?
    ensures s.nextPk <= Next(s, e).value.nextPk
  {
    hide KeyTaken, SlotTaken, ProbeSlot, FoundActive, IsHead;
  }

  lemma InvKeys(s: Sys, e: Event)
    requires KeysUnique(s) && ClaimsKnown(s) && Next(s, e).Some?
    ensures KeysUnique(Next(s, e).value)
  {
    hide Next, ClaimsKnown;
    var t := Next(s, e).value;
    PkGrows(s, e);
    forall q | q in t.rows ensures t.rows[q].pk == q && q < t.nextPk {
      if q in s.rows { RowOrigin(s, e, q); } else { RowBirth(s, e, q); }
    }
    forall q, r | q in t.rows && r in t.rows && q != r ensures t.rows[q].dedupeKey != t.rows[r].dedupeKey {
      if q in s.rows { RowOrigin(s, e, q); } else { RowBirth(s, e, q); }
      if r in s.rows { RowOrigin(s, e, r); } else { RowBirth(s, e, r); }
    }
  }

  lemma InvSlots(s: Sys, e: Event)
    requires KeysUnique(s) && ClaimsKnown(s) && SlotsUnique(s.rows) && Next(s, e).Some?
    ensures SlotsUnique(Next(s, e).value.rows)
  {
    hide Next, ClaimsKnown;
    var m := Next(s, e).value.rows;
    forall q | q in m && m[q].state == Active ensures m[q].slot.Some? && m[q].slot.value < SLOTS {
      if q in s.rows { RowOrigin(s, e, q); } else { RowBirth(s, e, q); }
    }
    forall q, r | q in m && r in m && q != r && m[q].state == Active && m[r].state == Active && SameBox(m[q], m[r])
      ensures m[q].slot != m[r].slot
    {
      if q in s.rows { RowOrigin(s, e, q); } else { RowBirth(s, e, q); }
      if r in s.rows { RowOrigin(s, e, r); } else { RowBirth(s, e, r); }
    }
  }

  lemma InvNext(s: Sys, e: Event)
    requires Inv(s) && Next(s, e).Some?
    ensures Inv(Next(s, e).value)
  {
    hide Next, KeysUnique, SlotsUnique, ClaimsKnown;
    InvKeys(s, e);
    InvSlots(s, e);
    InvClaims(s, e);
  }

  lemma KeyBound(s: Sys, q: nat)
    requires Inv(s) && q in s.rows
    ensures q < s.nextPk && s.rows[q].pk == q
  {
  }

  lemma {:induction false} InvRun(clock: int, events: seq<Event>)
    requires Run(clock, events).Some?
    ensures Inv(Run(clock, events).value)
  {
    hide Next;
    if events != [] {
      InvRun(clock, events[..|events| - 1]);
      InvNext(Run(clock, events[..|events| - 1]).value, events[|events| - 1]);
    }
  }

  /** At most one row per dedupe key, and per claim id, in any reachable state. */
  lemma OneRowPerKey(clock: int, events: seq<Event>, q: nat, r: nat)
    requires Run(clock, events).Some?
    requires q in Run(clock, events).value.rows && r in Run(clock, events).value.rows
    requires var a, b := Run(clock, events).value.rows[q], Run(clock, events).value.rows[r];
      a.dedupeKey == b.dedupeKey || (a.claimId.Some? && a.claimId == b.claimId)
    ensures q == r
  {
    hide Next, SlotsUnique;
    InvRun(clock, events);
  }

  // ---------- the bound ----------

  lemma {:induction false} SlotsInjective(m: Contents, keys: set<nat>, slots: set<nat>)
    requires SlotsUnique(m)
    requires forall q | q in keys :: q in m && m[q].state == Active && m[q].slot.value in slots
    requires forall q, r | q in keys && r in keys :: SameBox(m[q], m[r])
    ensures |keys| <= |slots|
    decreases keys
  {
    if keys != {} {
      var q :| q in keys;
      SlotsInjective(m, keys - {q}, slots - {m[q].slot.value});
    }
  }

  function Slots(n: nat): (slots: set<nat>)
    ensures |slots| == n
    ensures forall i: nat :: i in slots <==> i < n
  {
    if n == 0 then {} else Slots(n - 1) + {n - 1}
  }

  /** A mailbox never holds more than 64 active rows, in any reachable state. */
  lemma MailboxIsBounded(clock: int, events: seq<Event>, channel: string, mailbox: string)
    requires Run(clock, events).Some?
    ensures |ActiveKeys(Run(clock, events).value.rows, channel, mailbox)| <= SLOTS
  {
    InvRun(clock, events);
    var m := Run(clock, events).value.rows;
    SlotsInjective(m, ActiveKeys(m, channel, mailbox), Slots(SLOTS));
  }

  lemma ProbeWraps(start: nat, offset: nat)
    requires offset < SLOTS
    ensures ProbeSlot(start, offset) == start % SLOTS + offset - if start % SLOTS + offset < SLOTS then 0 else SLOTS
  {
  }

  /** The probe visits every slot, each at exactly one offset. */
  lemma ProbeVisitsEverySlot(start: nat, slot: nat)
    requires slot < SLOTS
    ensures exists offset: nat | offset < SLOTS :: ProbeSlot(start, offset) == slot
    ensures forall a: nat, b: nat | a < SLOTS && b < SLOTS && ProbeSlot(start, a) == slot && ProbeSlot(start, b) == slot :: a == b
  {
    hide ProbeSlot;
    var first := start % SLOTS;
    var offset: nat := if slot >= first then slot - first else slot + SLOTS - first;
    ProbeWraps(start, offset);
    forall a: nat, b: nat | a < SLOTS && b < SLOTS && ProbeSlot(start, a) == slot && ProbeSlot(start, b) == slot ensures a == b {
      ProbeWraps(start, a);
      ProbeWraps(start, b);
    }
  }

  const OFFLINE_GLOBAL: nat := 4000
  const OFFLINE_PER_DEVICE: nat := 256

  datatype StoreError = StorageFull | MailboxQuota

  function DeviceKeys(m: Contents, device: string): (s: set<nat>)
  {
    set q | q in m && m[q].state == Active && m[q].device == Some(device)
  }

  /** The caps on all rows, and on the active rows of one sending device. */
  predicate Full(m: Contents, device: Option<string>)
  {
    |m| >= OFFLINE_GLOBAL || (device.Some? && |DeviceKeys(m, device.value)| >= OFFLINE_PER_DEVICE)
  }

  /** The probing loop with nobody else writing: below the caps, refused only when every slot of the mailbox is taken. */
  class MessageCollection {
    var rows: Contents
    var nextPk: nat

    constructor ()
      ensures rows == map[] && nextPk == 0
    {
      rows := map[];
      nextPk := 0;
    }

    method InsertOne(l: Letter, slot: nat) returns (ok: bool)
      modifies this
      ensures ok <==> !KeyTaken(old(rows), l.dedupeKey) && !SlotTaken(old(rows), l.channel, l.mailbox, slot)
      ensures if ok then rows == old(rows)[old(nextPk) := NewRow(old(nextPk), l, Some(slot))] && nextPk == old(nextPk) + 1
              else rows == old(rows) && nextPk == old(nextPk)
    {
      ok := !KeyTaken(rows, l.dedupeKey) && !SlotTaken(rows, l.channel, l.mailbox, slot);
      if ok {
        rows := rows[nextPk := NewRow(nextPk, l, Some(slot))];
        nextPk := nextPk + 1;
      }
    }

    method StoreOfflineMessage(l: Letter, start: nat) returns (r: Result<Row, StoreError>)
      requires start < SLOTS
      modifies this
      ensures r == Err(StorageFull) <==> !KeyTaken(old(rows), l.dedupeKey) && Full(old(rows), l.device)
      ensures r == Err(MailboxQuota) <==>
        && !KeyTaken(old(rows), l.dedupeKey) && !Full(old(rows), l.device)
        && forall slot: nat | slot < SLOTS :: SlotTaken(old(rows), l.channel, l.mailbox, slot)
      ensures KeyTaken(old(rows), l.dedupeKey) ==>
        r.Ok? && r.value in old(rows).Values && r.value.dedupeKey == l.dedupeKey
      ensures r.Err? || KeyTaken(old(rows), l.dedupeKey) ==> rows == old(rows)
      ensures r.Ok? && !KeyTaken(old(rows), l.dedupeKey) ==>
        && r.value.slot.Some? && !SlotTaken(old(rows), l.channel, l.mailbox, r.value.slot.value)
        && r.value == NewRow(old(nextPk), l, r.value.slot)
        && rows == old(rows)[old(nextPk) := r.value]
    {
      if KeyTaken(rows, l.dedupeKey) {
        var q :| q in rows && rows[q].dedupeKey == l.dedupeKey;
        return Ok(rows[q]);
      }
      if |rows| >= OFFLINE_GLOBAL { return Err(StorageFull); }
      if l.device.Some? && |DeviceKeys(rows, l.device.value)| >= OFFLINE_PER_DEVICE { return Err(StorageFull); }
      var offset: nat := 0;
      while offset < SLOTS
        invariant offset <= SLOTS && rows == old(rows) && nextPk == old(nextPk)
        invariant forall k: nat | k < offset :: SlotTaken(rows, l.channel, l.mailbox, ProbeSlot(start, k))
      {
        var slot := ProbeSlot(start, offset);
        var ok := InsertOne(l, slot);
        if ok { return Ok(rows[nextPk - 1]); }
        offset := offset + 1;
      }
      forall slot: nat | slot < SLOTS
        ensures SlotTaken(rows, l.channel, l.mailbox, slot)
      {
        ProbeVisitsEverySlot(start, slot);
      }
      return Err(MailboxQuota);
    }
  }

  // ---------- conservation ----------

  /** The only ways in which one step changes a row. */
  lemma StepConserves(s: Sys, e: Event, pk: nat)
    requires Inv(s) && Next(s, e).Some? && pk in s.rows
    ensures RowStep(s, e, s.rows[pk], Next(s, e).value)
  {
    hide Next, SlotsUnique, RowKept;
    if pk in Next(s, e).value.rows {
      RowOrigin(s, e, pk);
    } else {
      RowDeath(s, e, pk);
    }
  }

  lemma RunPrefix(clock: int, events: seq<Event>, n: nat)
    requires n <= |events| && Run(clock, events).Some?
    ensures Run(clock, events[..n]).Some?
    decreases |events| - n
  {
    if n < |events| {
      RunPrefix(clock, events, n + 1);
      assert events[..n + 1][..n] == events[..n];
    } else {
      assert events[..n] == events;
    }
  }

  predicate StaysDead(s: Sys, t: Sys, pk: nat)
  {
    && s.nextPk <= t.nextPk
    && (pk in s.rows && s.rows[pk].state == Rejected && pk in t.rows ==>
          && t.rows[pk].state == Rejected && t.rows[pk].claimId.None?
          && t.rows[pk].deliveryAttempts == s.rows[pk].deliveryAttempts)
    && (pk !in s.rows && pk < s.nextPk ==> pk !in t.rows)
  }

  lemma StaysDeadStep(s: Sys, u: Sys, e: Event, pk: nat)
    requires Inv(u) && Next(u, e).Some? && StaysDead(s, u, pk) && (pk in s.rows ==> pk < s.nextPk)
    ensures StaysDead(s, Next(u, e).value, pk)
  {
    hide Next, Inv;
    NewKeysAreFresh(u, e, pk);
    if pk in u.rows {
      KeyBound(u, pk);
      StepConserves(u, e, pk);
    }
  }

  /** Along any run a terminal row stays terminal until it is gone, and a key once gone never comes back. */
  lemma {:induction false} TerminalStays(clock: int, events: seq<Event>, n: nat, m: nat, pk: nat)
    requires n <= m <= |events| && Run(clock, events).Some?
    ensures Run(clock, events[..n]).Some? && Run(clock, events[..m]).Some?
    ensures StaysDead(Run(clock, events[..n]).value, Run(clock, events[..m]).value, pk)
    decreases m - n
  {
    hide Next, Inv, StaysDead;
    RunPrefix(clock, events, n);
    RunPrefix(clock, events, m);
    InvRun(clock, events[..n]);
    var s := Run(clock, events[..n]).value;
    if pk in s.rows { KeyBound(s, pk); }
    if n < m {
      TerminalStays(clock, events, n, m - 1, pk);
      InvRun(clock, events[..m - 1]);
      assert events[..m][..m - 1] == events[..m - 1];
      StaysDeadStep(s, Run(clock, events[..m - 1]).value, events[m - 1], pk);
    } else {
      DeadAlready(s, pk);
    }
  }

  lemma DeadAlready(s: Sys, pk: nat)
    requires Inv(s)
    ensures StaysDead(s, s, pk)
  {
  }

  lemma NewKeysAreFresh(s: Sys, e: Event, pk: nat)
    requires Inv(s) && Next(s, e).Some?
    ensures s.nextPk <= Next(s, e).value.nextPk
    ensures pk in Next(s, e).value.rows && pk !in s.rows ==> pk >= s.nextPk
  {
    hide Next, SlotsUnique, ClaimsUnique;
    PkGrows(s, e);
    if pk in Next(s, e).value.rows && pk !in s.rows { RowBirth(s, e, pk); }
  }

  /**
   * Conservation over whole runs: a row that is there at some moment and gone at a later one was removed by one of the
   * events in between, which acknowledged it under its latest claim at that time, or without one while it held none, or
   * found it expired.
   */
  lemma {:induction false} RowsAreConserved(clock: int, events: seq<Event>, n: nat, m: nat, pk: nat) returns (k: nat)
    requires n <= m <= |events| && Run(clock, events).Some? && Run(clock, events[..n]).Some? && Run(clock, events[..m]).Some?
    requires pk in Run(clock, events[..n]).value.rows && pk !in Run(clock, events[..m]).value.rows
    ensures n <= k < m && Run(clock, events[..k]).Some? && pk in Run(clock, events[..k]).value.rows
    ensures var s := Run(clock, events[..k]).value; s.rows[pk].pk == pk && Removes(s, events[k], s.rows[pk])
    decreases m - n
  {
    hide Next, Inv, Removes;
    RunPrefix(clock, events, m - 1);
    InvRun(clock, events[..m - 1]);
    assert events[..m][..m - 1] == events[..m - 1];
    var s := Run(clock, events[..m - 1]).value;
    if pk in s.rows {
      k := m - 1;
      KeyBound(s, pk);
      StepConserves(s, events[k], pk);
    } else {
      k := RowsAreConserved(clock, events, n, m - 1, pk);
    }
  }

  /** Likewise a row that was active and is terminal later was rejected under its latest claim, or recorded by its dedupe key. */
  lemma {:induction false} RejectionsHaveCause(clock: int, events: seq<Event>, n: nat, m: nat, pk: nat) returns (k: nat)
    requires n <= m <= |events| && Run(clock, events).Some? && Run(clock, events[..n]).Some? && Run(clock, events[..m]).Some?
    requires pk in Run(clock, events[..n]).value.rows && Run(clock, events[..n]).value.rows[pk].state == Active
    requires pk in Run(clock, events[..m]).value.rows && Run(clock, events[..m]).value.rows[pk].state == Rejected
    ensures n <= k < m && Run(clock, events[..k]).Some? && pk in Run(clock, events[..k]).value.rows
    ensures var s := Run(clock, events[..k]).value;
      s.rows[pk].pk == pk && s.rows[pk].state == Active && Terminates(s, events[k], s.rows[pk])
    decreases m - n
  {
    hide Next, Inv, Terminates;
    StillThere(clock, events, n, m, pk);
    InvRun(clock, events[..m - 1]);
    assert events[..m][..m - 1] == events[..m - 1];
    var s := Run(clock, events[..m - 1]).value;
    KeyBound(s, pk);
    StepConserves(s, events[m - 1], pk);
    if s.rows[pk].state == Active {
      k := m - 1;
    } else {
      k := RejectionsHaveCause(clock, events, n, m - 1, pk);
    }
  }

  /** A key that is used at two moments is used in between. */
  lemma StillThere(clock: int, events: seq<Event>, n: nat, m: nat, pk: nat)
    requires n < m <= |events| && Run(clock, events).Some? && Run(clock, events[..n]).Some? && Run(clock, events[..m]).Some?
    requires pk in Run(clock, events[..n]).value.rows && pk in Run(clock, events[..m]).value.rows
    ensures Run(clock, events[..m - 1]).Some? && pk in Run(clock, events[..m - 1]).value.rows
  {
    hide Next, Inv;
    InvRun(clock, events[..n]);
    KeyBound(Run(clock, events[..n]).value, pk);
    TerminalStays(clock, events, n, m - 1, pk);
    InvRun(clock, events[..m - 1]);
    assert events[..m][..m - 1] == events[..m - 1];
    NewKeysAreFresh(Run(clock, events[..m - 1]).value, events[m - 1], pk);
  }

  predicate SameContent(a: Row, b: Row)
  {
    && b.pk == a.pk && b.id == a.id && b.dedupeKey == a.dedupeKey && SameBox(b, a)
    && b.timestamp == a.timestamp && b.expiresAt == a.expiresAt
    && (b.state == Active ==> a.state == Active && b.envelope == a.envelope && b.slot == a.slot)
  }

  /** What a row says never changes along a run, and its envelope and slot stay as long as it is active. */
  lemma {:induction false} ContentStays(clock: int, events: seq<Event>, n: nat, m: nat, pk: nat)
    requires n <= m <= |events| && Run(clock, events).Some? && Run(clock, events[..n]).Some? && Run(clock, events[..m]).Some?
    requires pk in Run(clock, events[..n]).value.rows && pk in Run(clock, events[..m]).value.rows
    ensures SameContent(Run(clock, events[..n]).value.rows[pk], Run(clock, events[..m]).value.rows[pk])
    decreases m - n
  {
    hide Next, Inv;
    if n < m {
      StillThere(clock, events, n, m, pk);
      ContentStays(clock, events, n, m - 1, pk);
      InvRun(clock, events[..m - 1]);
      assert events[..m][..m - 1] == events[..m - 1];
      var s := Run(clock, events[..m - 1]).value;
      KeyBound(s, pk);
      StepConserves(s, events[m - 1], pk);
    }
  }

  // ---------- first in, first out ----------

  /** Every row with key under `below` that is delivered before `r` is terminal, or had expired at `at`. */
  predicate NothingAhead(m: Contents, r: Row, at: int, below: nat)
  {
    forall q | q in m && q < below && SameBox(m[q], r) && Before(m[q], r) :: m[q].state == Rejected || m[q].expiresAt <= at
  }

  /** Nothing ahead of a row revives, whatever the step. */
  lemma NothingAheadKept(s: Sys, e: Event, pk: nat, at: int, below: nat)
    requires Inv(s) && Next(s, e).Some? && below <= s.nextPk
    requires pk in s.rows && pk in Next(s, e).value.rows && NothingAhead(s.rows, s.rows[pk], at, below)
    ensures NothingAhead(Next(s, e).value.rows, Next(s, e).value.rows[pk], at, below)
  {
    hide Next, Inv;
    var t := Next(s, e).value;
    KeyBound(s, pk);
    StepConserves(s, e, pk);
    forall q | q in t.rows && q < below && SameBox(t.rows[q], t.rows[pk]) && Before(t.rows[q], t.rows[pk])
      ensures t.rows[q].state == Rejected || t.rows[q].expiresAt <= at
    {
      NewKeysAreFresh(s, e, q);
      KeyBound(s, q);
      StepConserves(s, e, q);
    }
  }

  predicate WorkerFenced(s: Sys, k: Worker)
    requires k.Claiming?
  {
    && k.at <= s.clock && k.at < k.lease && k.head < s.nextPk && k.seen <= s.nextPk
    && (k.head in s.rows ==>
          In(s.rows[k.head], k.channel, k.mailbox) && NothingAhead(s.rows, s.rows[k.head], k.at, k.seen))
  }

  predicate Fenced(s: Sys)
  {
    forall w | w in s.workers && s.workers[w].Claiming? :: WorkerFenced(s, s.workers[w])
  }

  lemma FencedWorker(s: Sys, e: Event, w: nat)
    requires Inv(s) && Fenced(s) && Next(s, e).Some?
    requires w in Next(s, e).value.workers && Next(s, e).value.workers[w].Claiming?
    ensures WorkerFenced(Next(s, e).value, Next(s, e).value.workers[w])
  {
    hide Next, SlotsUnique, ClaimsUnique;
    var t := Next(s, e).value;
    var k := t.workers[w];
    WorkerOrigin(s, e, w);
    ClockGrows(s, e);
    NewKeysAreFresh(s, e, k.head);
    if w in s.workers && s.workers[w] == k {
      if k.head in t.rows {
        KeyBound(s, k.head);
        StepConserves(s, e, k.head);
        NothingAheadKept(s, e, k.head, k.at, k.seen);
      }
    }
  }

  lemma {:induction false} FencedRun(clock: int, events: seq<Event>)
    requires Run(clock, events).Some?
    ensures Inv(Run(clock, events).value) && Fenced(Run(clock, events).value)
  {
    hide Next, Inv, WorkerFenced;
    InvRun(clock, events);
    if events != [] {
      var n := |events| - 1;
      FencedRun(clock, events[..n]);
      var s, t := Run(clock, events[..n]).value, Run(clock, events).value;
      forall w | w in t.workers && t.workers[w].Claiming? ensures WorkerFenced(t, t.workers[w]) {
        FencedWorker(s, events[n], w);
      }
    }
  }

  /**
   * Claims never skip: however workers race between the lookup and the update, when a claim is about to
   * succeed every row that existed at its lookup and sorts before the claimed one is gone, terminal, or had
   * expired at that lookup.
   */
  lemma ClaimsNeverSkip(clock: int, events: seq<Event>, w: nat)
    requires Run(clock, events).Some?
    requires var s := Run(clock, events).value; w in s.workers && s.workers[w].Claiming? && CasMatches(s.rows, s.workers[w])
    ensures var s := Run(clock, events).value;
      var k := s.workers[w];
      && Pending(s.rows[k.head], k.channel, k.mailbox, k.at)
      && NothingAhead(s.rows, s.rows[k.head], k.at, k.seen)
  {
    FencedRun(clock, events);
  }

  // ---------- one live lease ----------

  predicate Leads(s: Sys, q: nat)
    requires q in s.rows
  {
    NothingAhead(s.rows, s.rows[q], s.clock, s.nextPk)
  }

  /** The step inserts an active row that has not expired. */
  predicate Inserts(s: Sys, e: Event)
  {
    && e.TryStore? && e.w in s.workers && s.workers[e.w].Storing?
    && var k := s.workers[e.w];
      && k.letter.expiresAt > s.clock && !KeyTaken(s.rows, k.letter.dedupeKey)
      && !SlotTaken(s.rows, k.letter.channel, k.letter.mailbox, ProbeSlot(k.start, k.offset))
  }

  /** The step inserts nothing that is delivered before row `q`. */
  predicate Spares(s: Sys, e: Event, q: nat)
    requires q in s.rows
  {
    Inserts(s, e) && In(s.rows[q], s.workers[e.w].letter.channel, s.workers[e.w].letter.mailbox) ==>
      s.rows[q].timestamp <= s.workers[e.w].letter.timestamp
  }

  predicate PendingRow(s: Sys, q: nat)
  {
    q in s.rows && s.rows[q].state == Active && s.rows[q].expiresAt > s.clock
  }

  lemma NewRowSortsLast(s: Sys, e: Event, q: nat, pk: nat)
    requires Inv(s) && Next(s, e).Some? && pk in s.rows && Spares(s, e, pk)
    requires q in Next(s, e).value.rows && q !in s.rows
    requires SameBox(Next(s, e).value.rows[q], s.rows[pk])
    ensures var n := Next(s, e).value.rows[q]; n.state == Rejected || n.expiresAt <= s.clock || !Before(n, s.rows[pk])
  {
    hide Next, SlotsUnique, ClaimsUnique;
    RowBirth(s, e, q);
  }

  lemma LeadsKept(s: Sys, e: Event, pk: nat)
    requires Inv(s) && Next(s, e).Some?
    requires pk in s.rows && pk in Next(s, e).value.rows && Spares(s, e, pk) && Leads(s, pk)
    ensures Leads(Next(s, e).value, pk)
  {
    hide Next, Inv, Spares;
    var t := Next(s, e).value;
    NothingAheadKept(s, e, pk, s.clock, s.nextPk);
    KeyBound(s, pk);
    StepConserves(s, e, pk);
    ClockGrows(s, e);
    forall q | q in t.rows && q < t.nextPk && SameBox(t.rows[q], t.rows[pk]) && Before(t.rows[q], t.rows[pk])
      ensures t.rows[q].state == Rejected || t.rows[q].expiresAt <= t.clock
    {
      if q in s.rows { KeyBound(s, q); } else { NewRowSortsLast(s, e, q, pk); }
    }
  }

  lemma PendingBefore(s: Sys, e: Event, q: nat)
    requires Inv(s) && Next(s, e).Some? && q in s.rows && PendingRow(Next(s, e).value, q)
    ensures PendingRow(s, q)
  {
    hide Next, Inv;
    KeyBound(s, q);
    StepConserves(s, e, q);
    ClockGrows(s, e);
  }

  predicate LiveLease(s: Sys, q: nat)
  {
    PendingRow(s, q) && Leased(s.rows[q], s.clock)
  }

  /** A claim of row `q` is on its way and will hold a live lease if it lands now. */
  predicate InFlight(s: Sys, w: nat, q: nat)
  {
    && w in s.workers && s.workers[w].Claiming? && s.workers[w].head == q
    && CasMatches(s.rows, s.workers[w]) && s.workers[w].lease > s.clock
  }

  /** The row is under a live lease, or may be at any moment without another lookup. */
  predicate Live(s: Sys, q: nat)
  {
    PendingRow(s, q) && (LiveLease(s, q) || exists w | w in s.workers :: InFlight(s, w, q))
  }

  /** A letter is not stored ahead of a live row of its mailbox. */
  predicate InOrder(s: Sys, e: Event)
  {
    forall q | q in s.rows && Live(s, q) :: Spares(s, e, q)
  }

  predicate RunInOrder(clock: int, events: seq<Event>)
  {
    forall i | 0 <= i < |events| :: Run(clock, events[..i]).Some? ==> InOrder(Run(clock, events[..i]).value, events[i])
  }

  /** Nothing deliverable is ahead of a live row. */
  predicate LiveFirst(s: Sys)
  {
    forall q | q in s.rows && Live(s, q) :: Leads(s, q)
  }

  lemma NewRowUnclaimed(s: Sys, e: Event, q: nat)
    requires Inv(s) && Fenced(s) && Next(s, e).Some? && q !in s.rows
    ensures !Live(Next(s, e).value, q)
  {
    hide Next, SlotsUnique, ClaimsUnique;
    var t := Next(s, e).value;
    assert forall v | v in s.workers && s.workers[v].Claiming? :: s.workers[v].head < s.nextPk;
    if Live(t, q) {
      RowBirth(s, e, q);
      var w :| w in t.workers && InFlight(t, w, q);
      WorkerOrigin(s, e, w);
    }
  }

  /** A lease only ever gets later, so a claim that could not land before cannot land after the row is claimed again. */
  lemma InFlightBefore(s: Sys, e: Event, w: nat, q: nat)
    requires Inv(s) && Fenced(s) && Next(s, e).Some? && q in s.rows && InFlight(Next(s, e).value, w, q)
    ensures (w in s.workers && InFlight(s, w, q)) || IsHead(s.rows, s.rows[q].channel, s.rows[q].mailbox, s.clock, q)
  {
    hide Next, SlotsUnique, ClaimsUnique, IsHead;
    var t := Next(s, e).value;
    WorkerOrigin(s, e, w);
    KeyBound(s, q);
    StepConserves(s, e, q);
    ClockGrows(s, e);
    if t.rows[q] != s.rows[q] && w in s.workers && s.workers[w] == t.workers[w] {
      assert WorkerFenced(s, s.workers[e.w]);
    }
  }

  /** A live row was live before the step, or has just been found as the head of its mailbox. */
  lemma LiveBefore(s: Sys, e: Event, q: nat)
    requires Inv(s) && Fenced(s) && Next(s, e).Some? && q in s.rows && Live(Next(s, e).value, q)
    ensures Live(s, q) || IsHead(s.rows, s.rows[q].channel, s.rows[q].mailbox, s.clock, q)
  {
    hide Next, Inv, Fenced, IsHead, InFlight;
    var t := Next(s, e).value;
    PendingBefore(s, e, q);
    KeyBound(s, q);
    StepConserves(s, e, q);
    ClockGrows(s, e);
    if LiveLease(t, q) {
      if t.rows[q] != s.rows[q] { LandedWasInFlight(s, e, q); }
    } else {
      var w :| w in t.workers && InFlight(t, w, q);
      InFlightBefore(s, e, w, q);
    }
  }

  lemma LandedWasInFlight(s: Sys, e: Event, q: nat)
    requires Inv(s) && Next(s, e).Some? && q in s.rows && LiveLease(Next(s, e).value, q) && Next(s, e).value.rows[q] != s.rows[q]
    ensures e.ClaimCas? && InFlight(s, e.w, q)
  {
    hide Next, Inv;
    KeyBound(s, q);
    StepConserves(s, e, q);
    ClockGrows(s, e);
  }

  lemma HeadLeads(s: Sys, q: nat)
    requires Inv(s) && q in s.rows && IsHead(s.rows, s.rows[q].channel, s.rows[q].mailbox, s.clock, q)
    ensures Leads(s, q)
  {
    hide SlotsUnique, ClaimsUnique;
  }

  lemma LiveFirstNext(s: Sys, e: Event)
    requires Inv(s) && Fenced(s) && LiveFirst(s) && Next(s, e).Some? && InOrder(s, e)
    ensures LiveFirst(Next(s, e).value)
  {
    hide Next, Inv, Spares, Live, Fenced, IsHead, Leads;
    var t := Next(s, e).value;
    forall q | q in t.rows && Live(t, q) ensures Leads(t, q) {
      if q !in s.rows { NewRowUnclaimed(s, e, q); }
      LiveBefore(s, e, q);
      if Live(s, q) {
        LeadsKept(s, e, q);
      } else {
        HeadLeads(s, q);
        LookupInsertsNothing(s, e, q);
        LeadsKept(s, e, q);
      }
    }
  }

  /** Only a lookup makes a row live, and a lookup inserts nothing. */
  lemma LookupInsertsNothing(s: Sys, e: Event, q: nat)
    requires Inv(s) && Fenced(s) && Next(s, e).Some? && q in s.rows && Live(Next(s, e).value, q) && !Live(s, q)
    ensures Spares(s, e, q)
  {
    hide SlotsUnique, ClaimsUnique, IsHead;
  }

  lemma {:induction false} LiveFirstRun(clock: int, events: seq<Event>)
    requires Run(clock, events).Some? && RunInOrder(clock, events)
    ensures Inv(Run(clock, events).value) && LiveFirst(Run(clock, events).value)
  {
    hide Next, InOrder, Live, Leads;
    FencedRun(clock, events);
    if events != [] {
      var n := |events| - 1;
      FencedRun(clock, events[..n]);
      assert RunInOrder(clock, events[..n]) by {
        forall i | 0 <= i < n ensures events[..n][..i] == events[..i] {}
      }
      LiveFirstRun(clock, events[..n]);
      LiveFirstNext(Run(clock, events[..n]).value, events[n]);
    }
  }

  predicate AtMostOneLease(s: Sys)
  {
    forall q, r | q in s.rows && r in s.rows && LiveLease(s, q) && LiveLease(s, r) && SameBox(s.rows[q], s.rows[r]) :: q == r
  }

  /** While letters are stored in order, a mailbox never has two live leases. */
  lemma OneLiveLease(clock: int, events: seq<Event>)
    requires Run(clock, events).Some? && RunInOrder(clock, events)
    ensures AtMostOneLease(Run(clock, events).value)
  {
    hide Next, SlotsUnique, ClaimsUnique;
    LiveFirstRun(clock, events);
    var s := Run(clock, events).value;
    forall q, r | q in s.rows && r in s.rows && LiveLease(s, q) && LiveLease(s, r) && SameBox(s.rows[q], s.rows[r]) ensures q == r {
      assert Live(s, q) && Live(s, r);
      assert Leads(s, q) && Leads(s, r);
    }
  }

  // ---------- one claim ----------

  /** The row holds a claim, be its lease over or not, or some worker has looked it up in order to claim it. */
  predicate Wanted(s: Sys, q: nat)
  {
    PendingRow(s, q) && (s.rows[q].claimId.Some? || exists w | w in s.workers :: s.workers[w].Claiming? && s.workers[w].head == q)
  }

  predicate WantedInOrder(s: Sys, e: Event)
  {
    forall q | q in s.rows && Wanted(s, q) :: Spares(s, e, q)
  }

  predicate RunWantedInOrder(clock: int, events: seq<Event>)
  {
    forall i | 0 <= i < |events| :: Run(clock, events[..i]).Some? ==> WantedInOrder(Run(clock, events[..i]).value, events[i])
  }

  predicate WantedFirst(s: Sys)
  {
    forall q | q in s.rows && Wanted(s, q) :: Leads(s, q)
  }

  lemma WantedBefore(s: Sys, e: Event, q: nat)
    requires Inv(s) && Fenced(s) && Next(s, e).Some? && Wanted(Next(s, e).value, q)
    ensures q in s.rows && (Wanted(s, q) || (e.LookupHead? && IsHead(s.rows, s.rows[q].channel, s.rows[q].mailbox, s.clock, q)))
  {
    hide Next, SlotsUnique, ClaimsUnique;
    var t := Next(s, e).value;
    if t.rows[q].claimId.Some? {
      RowClaimOrigin(s, e, q);
    } else {
      var w :| w in t.workers && t.workers[w].Claiming? && t.workers[w].head == q;
      WorkerOrigin(s, e, w);
      NewKeysAreFresh(s, e, q);
      assert w in s.workers && s.workers[w] == t.workers[w] ==> WorkerFenced(s, s.workers[w]);
    }
    PendingBefore(s, e, q);
  }

  lemma WantedFirstNext(s: Sys, e: Event)
    requires Inv(s) && Fenced(s) && WantedFirst(s) && Next(s, e).Some? && WantedInOrder(s, e)
    ensures WantedFirst(Next(s, e).value)
  {
    hide Next, Inv, Wanted, Fenced, IsHead, Leads;
    var t := Next(s, e).value;
    forall q | q in t.rows && Wanted(t, q) ensures Leads(t, q) {
      WantedBefore(s, e, q);
      if !Wanted(s, q) { HeadLeads(s, q); }
      LeadsKept(s, e, q);
    }
  }

  lemma {:induction false} WantedFirstRun(clock: int, events: seq<Event>)
    requires Run(clock, events).Some? && RunWantedInOrder(clock, events)
    ensures WantedFirst(Run(clock, events).value)
  {
    hide Next, WantedInOrder, Wanted, Leads;
    if events != [] {
      var n := |events| - 1;
      FencedRun(clock, events[..n]);
      assert RunWantedInOrder(clock, events[..n]) by {
        forall i | 0 <= i < n ensures events[..n][..i] == events[..i] {}
      }
      WantedFirstRun(clock, events[..n]);
      WantedFirstNext(Run(clock, events[..n]).value, events[n]);
    }
  }

  /** While no letter is stored ahead of a wanted row either, at most one pending row of a mailbox holds a claim at all. */
  lemma OneClaim(clock: int, events: seq<Event>, q: nat, r: nat)
    requires Run(clock, events).Some? && RunWantedInOrder(clock, events)
    requires var s := Run(clock, events).value;
      && PendingRow(s, q) && PendingRow(s, r) && SameBox(s.rows[q], s.rows[r])
      && s.rows[q].claimId.Some? && s.rows[r].claimId.Some?
    ensures q == r
  {
    hide Next, SlotsUnique, ClaimsUnique;
    InvRun(clock, events);
    WantedFirstRun(clock, events);
    var s := Run(clock, events).value;
    assert Wanted(s, q) && Wanted(s, r);
    assert Leads(s, q) && Leads(s, r);
  }

  // ---------- the order is needed ----------

  lemma Extend(clock: int, events: seq<Event>, s: Sys, e: Event, t: Sys)
    requires Run(clock, events) == Some(s) && Next(s, e) == Some(t)
    ensures Run(clock, events + [e]) == Some(t)
  {
    hide Next;
    assert (events + [e])[..|events|] == events;
  }

  /** Stores a letter into a mailbox that holds nothing at or after the next key, and claims it as the head. */
  lemma StoreAndClaim(clock: int, events: seq<Event>, s: Sys, l: Letter, start: nat, claimId: string, lease: int) returns (more: seq<Event>)
    requires Run(clock, events) == Some(s) && 0 !in s.workers && claimId !in s.claims
    requires !KeyTaken(s.rows, l.dedupeKey) && !SlotTaken(s.rows, l.channel, l.mailbox, ProbeSlot(start, 0))
    requires l.expiresAt > s.clock && lease > s.clock
    requires forall q | q in s.rows && Pending(s.rows[q], l.channel, l.mailbox, s.clock) ::
      q < s.nextPk && Before(NewRow(s.nextPk, l, None), s.rows[q])
    ensures var row := Claimed(NewRow(s.nextPk, l, Some(ProbeSlot(start, 0))), lease, claimId);
      Run(clock, more) == Some(Sys(s.clock, s.rows[s.nextPk := row], s.nextPk + 1, s.claims + {claimId}, s.workers - {0}))
  {
    hide Run, KeyTaken, SlotTaken, ProbeSlot;
    var pk := s.nextPk;
    var s1 := s.(workers := s.workers[0 := Storing(l, start, 0)]);
    Extend(clock, events, s, BeginStore(0, l, start), s1);
    var s2 := s.(workers := s1.workers - {0}, rows := s.rows[pk := NewRow(pk, l, Some(ProbeSlot(start, 0)))], nextPk := pk + 1);
    Extend(clock, events + [BeginStore(0, l, start)], s1, TryStore(0), s2);
    var s3 := s2.(claims := s.claims + {claimId},
                  workers := s2.workers[0 := Claiming(l.channel, l.mailbox, claimId, lease, pk, s.clock, pk + 1)]);
    var e3 := LookupHead(0, l.channel, l.mailbox, claimId, lease, pk);
    Extend(clock, events + [BeginStore(0, l, start)] + [TryStore(0)], s2, e3, s3);
    var s4 := s3.(workers := s3.workers - {0}, rows := s3.rows[pk := Claimed(s3.rows[pk], lease, claimId)]);
    more := events + [BeginStore(0, l, start)] + [TryStore(0)] + [e3] + [ClaimCas(0)];
    Extend(clock, events + [BeginStore(0, l, start)] + [TryStore(0)] + [e3], s3, ClaimCas(0), s4);
    assert s4.rows == s.rows[pk := Claimed(NewRow(pk, l, Some(ProbeSlot(start, 0))), lease, claimId)];
    assert s4.workers == s.workers - {0};
  }

  /** Among these keys of a mailbox there is a first pending row, if there is a pending row at all. */
  lemma {:induction false} FirstPending(m: Contents, keys: set<nat>, channel: string, mailbox: string, now: int, p: nat) returns (h: nat)
    requires keys <= m.Keys && p in keys && Pending(m[p], channel, mailbox, now)
    requires forall q | q in m :: m[q].pk == q
    ensures h in keys && Pending(m[h], channel, mailbox, now)
    ensures forall q | q in keys && q != h && Pending(m[q], channel, mailbox, now) :: Before(m[h], m[q])
    decreases |keys|
  {
    if keys == {p} {
      h := p;
    } else {
      var x :| x in keys && x != p;
      h := FirstPending(m, keys - {x}, channel, mailbox, now, p);
      if Pending(m[x], channel, mailbox, now) && Before(m[x], m[h]) { h := x; }
    }
  }

  lemma {:induction false} FreshNumber(used: set<nat>) returns (n: nat)
    ensures forall u | u in used :: u < n
    decreases |used|
  {
    if used == {} {
      n := 0;
    } else {
      var u :| u in used;
      n := FreshNumber(used - {u});
      if u >= n { n := u + 1; }
      assert used == used - {u} + {u};
    }
  }

  function Zeros(n: nat): (z: string)
    ensures |z| == n
  {
    seq(n, i => '0')
  }

  lemma FreshText(used: set<string>) returns (text: string)
    ensures text !in used
  {
    var lengths := set u | u in used :: |u|;
    var n := FreshNumber(lengths);
    text := Zeros(n);
    assert text in used ==> |text| in lengths;
  }

  /** The two steps by which an idle worker claims a head that is not leased. */
  lemma ClaimsHead(clock: int, events: seq<Event>, s: Sys, h: nat) returns (more: seq<Event>, t: Sys)
    requires Run(clock, events) == Some(s) && Inv(s) && h in s.rows && !Leased(s.rows[h], s.clock)
    requires IsHead(s.rows, s.rows[h].channel, s.rows[h].mailbox, s.clock, h)
    ensures Run(clock, events + more) == Some(t) && (forall i | 0 <= i < |more| :: !more[i].TryStore?)
    ensures LiveLease(t, h) && t.clock == s.clock && t.rows == s.rows[h := t.rows[h]] && SameBox(t.rows[h], s.rows[h])
  {
    hide Run, Inv;
    var w := FreshNumber(s.workers.Keys);
    var claimId := FreshText(s.claims);
    var r := s.rows[h];
    var k := Claiming(r.channel, r.mailbox, claimId, s.clock + 1, h, s.clock, s.nextPk);
    var lookup := LookupHead(w, r.channel, r.mailbox, claimId, s.clock + 1, h);
    var u := s.(claims := s.claims + {claimId}, workers := s.workers[w := k]);
    assert w !in s.workers;
    Extend(clock, events, s, lookup, u);
    t := u.(workers := u.workers - {w}, rows := u.rows[h := Claimed(r, s.clock + 1, claimId)]);
    Extend(clock, events + [lookup], u, ClaimCas(w), t);
    more := [lookup, ClaimCas(w)];
    assert events + more == events + [lookup] + [ClaimCas(w)];
  }

  /** A claim that is in flight may land now. */
  lemma FlightLands(clock: int, events: seq<Event>, s: Sys, q: nat) returns (more: seq<Event>, t: Sys)
    requires Run(clock, events) == Some(s) && q in s.rows && Live(s, q)
    ensures Run(clock, events + more) == Some(t) && (forall i | 0 <= i < |more| :: !more[i].TryStore?)
    ensures LiveLease(t, q) && t.clock == s.clock && t.rows == s.rows[q := t.rows[q]] && SameBox(t.rows[q], s.rows[q])
    ensures t.rows[q].timestamp == s.rows[q].timestamp && t.rows[q].pk == s.rows[q].pk
  {
    hide Run;
    if LiveLease(s, q) {
      more, t := [], s;
      assert events + more == events;
    } else {
      var w :| w in s.workers && InFlight(s, w, q);
      more := [ClaimCas(w)];
      t := Drop(s, w).(rows := s.rows[q := Claimed(s.rows[q], s.workers[w].lease, s.workers[w].claimId)]);
      Extend(clock, events, s, ClaimCas(w), t);
    }
  }

  predicate TwoLeases(s: Sys, channel: string, mailbox: string)
  {
    exists q, r | q in s.rows && r in s.rows ::
      q != r && LiveLease(s, q) && LiveLease(s, r) && In(s.rows[q], channel, mailbox) && In(s.rows[r], channel, mailbox)
  }

  lemma TwoLeasesAre(s: Sys, q: nat, r: nat, channel: string, mailbox: string)
    requires q != r && LiveLease(s, q) && LiveLease(s, r) && In(s.rows[q], channel, mailbox) && In(s.rows[r], channel, mailbox)
    ensures TwoLeases(s, channel, mailbox)
  {
  }

  /** Storing a letter leaves live rows live. */
  lemma StillLive(s: Sys, e: Event, q: nat)
    requires Inv(s) && q in s.rows && Live(s, q) && !Spares(s, e, q)
    ensures Next(s, e) == Some(DoTryStore(s, e.w)) && DoTryStore(s, e.w).clock == s.clock
    ensures var k, t := s.workers[e.w], DoTryStore(s, e.w);
      && t.rows == s.rows[s.nextPk := NewRow(s.nextPk, k.letter, Some(ProbeSlot(k.start, k.offset)))]
      && q != s.nextPk && Live(t, q)
  {
    KeyBound(s, q);
    hide Inv, KeyTaken, SlotTaken, ProbeSlot;
    var t := DoTryStore(s, e.w);
    if !LiveLease(s, q) {
      var w :| w in s.workers && InFlight(s, w, q);
      assert InFlight(t, w, q);
    }
  }

  lemma KeysMatch(s: Sys)
    requires Inv(s)
    ensures forall q | q in s.rows :: s.rows[q].pk == q
  {
  }

  lemma OtherLeaseStays(u: Sys, v: Sys, q: nat, h: nat)
    requires q != h && LiveLease(u, q) && v.clock == u.clock && h in v.rows && v.rows == u.rows[h := v.rows[h]]
    ensures LiveLease(v, q)
  {
  }

  /**
   * The order is needed at every single step: whatever the run was like before, once a letter is stored ahead of a live
   * row of its mailbox, the run can go on, storing nothing more, to two live leases there.
   */
  lemma TwoLeasesOutOfOrder(clock: int, events: seq<Event>, e: Event, q: nat) returns (more: seq<Event>)
    requires Run(clock, events).Some? && q in Run(clock, events).value.rows
    requires Live(Run(clock, events).value, q) && !Spares(Run(clock, events).value, e, q)
    ensures Run(clock, events + [e] + more).Some? && forall i | 0 <= i < |more| :: !more[i].TryStore?
    ensures var l := Run(clock, events).value.workers[e.w].letter;
      TwoLeases(Run(clock, events + [e] + more).value, l.channel, l.mailbox)
  {
    hide Run, Inv, Live, LiveLease, TwoLeases, Next, DoTryStore;
    var s := Run(clock, events).value;
    InvRun(clock, events);
    StillLive(s, e, q);
    var k, p, t := s.workers[e.w], s.nextPk, DoTryStore(s, e.w);
    var l := k.letter;
    Extend(clock, events, s, e, t);
    var landing, u := FlightLands(clock, events + [e], t, q);
    InvRun(clock, events + [e] + landing);
    KeysMatch(u);
    assert u.rows[p] == NewRow(p, l, Some(ProbeSlot(k.start, k.offset)));
    var h := FirstPending(u.rows, u.rows.Keys, l.channel, l.mailbox, u.clock, p);
    assert Before(u.rows[p], u.rows[q]);
    assert h != q;
    if Leased(u.rows[h], u.clock) {
      assert LiveLease(u, h) by { PendingLeased(u, h, l.channel, l.mailbox); }
      TwoLeasesAre(u, q, h, l.channel, l.mailbox);
      more := landing;
    } else {
      var claiming, v := ClaimsHead(clock, events + [e] + landing, u, h);
      OtherLeaseStays(u, v, q, h);
      TwoLeasesAre(v, q, h, l.channel, l.mailbox);
      more := landing + claiming;
      assert events + [e] + more == events + [e] + landing + claiming;
    }
  }

  lemma PendingLeased(s: Sys, h: nat, channel: string, mailbox: string)
    requires h in s.rows && Pending(s.rows[h], channel, mailbox, s.clock) && Leased(s.rows[h], s.clock)
    ensures LiveLease(s, h)
  {
  }

  /** However the run goes on after this prefix, if it stores in order from here on, no mailbox ever has two live leases. */
  ghost predicate SafeAfter(clock: int, events: seq<Event>)
  {
    forall more | OrderlyAfter(clock, events, more) :: AtMostOneLease(Run(clock, events + more).value)
  }

  predicate OrderlyAfter(clock: int, events: seq<Event>, more: seq<Event>)
  {
    && Run(clock, events + more).Some?
    && forall i | |events| <= i < |events + more| && Run(clock, (events + more)[..i]).Some? ::
      InOrder(Run(clock, (events + more)[..i]).value, (events + more)[i])
  }

  /** The condition is exact: after a run in order, a step keeps it safe to go on if and only if it is in order itself. */
  lemma OrderIsExact(clock: int, events: seq<Event>, e: Event)
    requires Run(clock, events).Some? && RunInOrder(clock, events) && Next(Run(clock, events).value, e).Some?
    ensures InOrder(Run(clock, events).value, e) <==> SafeAfter(clock, events + [e])
  {
    hide Next, Run, InOrder;
    if InOrder(Run(clock, events).value, e) {
      forall more | OrderlyAfter(clock, events + [e], more) ensures AtMostOneLease(Run(clock, events + [e] + more).value) {
        OrderlyRun(clock, events, e, more);
        OneLiveLease(clock, events + [e] + more);
      }
    } else {
      OutOfOrder(clock, events, e);
    }
  }

  lemma OrderlyRun(clock: int, events: seq<Event>, e: Event, more: seq<Event>)
    requires Run(clock, events).Some? && RunInOrder(clock, events) && InOrder(Run(clock, events).value, e)
    requires OrderlyAfter(clock, events + [e], more)
    ensures RunInOrder(clock, events + [e] + more)
  {
    hide Run, InOrder;
    var all := events + [e] + more;
    forall i | 0 <= i < |all| && Run(clock, all[..i]).Some? ensures InOrder(Run(clock, all[..i]).value, all[i]) {
      if i < |events| {
        assert all[..i] == events[..i] && all[i] == events[i];
      } else if i == |events| {
        assert all[..i] == events && all[i] == e;
      }
    }
  }

  lemma OutOfOrder(clock: int, events: seq<Event>, e: Event)
    requires Run(clock, events).Some? && !InOrder(Run(clock, events).value, e)
    ensures !SafeAfter(clock, events + [e])
  {
    hide Next, Run, Live, AtMostOneLease, TwoLeases;
    var q :| q in Run(clock, events).value.rows && Live(Run(clock, events).value, q) && !Spares(Run(clock, events).value, e, q);
    var more := TwoLeasesOutOfOrder(clock, events, e, q);
    var l := Run(clock, events).value.workers[e.w].letter;
    TwoAreTooMany(Run(clock, events + [e] + more).value, l.channel, l.mailbox);
    assert OrderlyAfter(clock, events + [e], more) by { NothingStored(clock, events + [e], more); }
  }

  lemma TwoAreTooMany(s: Sys, channel: string, mailbox: string)
    requires TwoLeases(s, channel, mailbox)
    ensures !AtMostOneLease(s)
  {
    hide LiveLease;
  }

  lemma NothingStored(clock: int, events: seq<Event>, more: seq<Event>)
    requires Run(clock, events + more).Some? && forall i | 0 <= i < |more| :: !more[i].TryStore?
    ensures OrderlyAfter(clock, events, more)
  {
    hide Run, Live, Next;
    var all := events + more;
    forall i | |events| <= i < |all| && Run(clock, all[..i]).Some? ensures InOrder(Run(clock, all[..i]).value, all[i]) {
      assert all[i] == more[i - |events|];
    }
  }

  /** And such steps do happen: a letter with an earlier timestamp stored behind a claimed one, and two live leases. */
  lemma TwoLeasesHappen() returns (events: seq<Event>)
    ensures Run(0, events).Some? && TwoLeases(Run(0, events).value, "c", "m")
  {
    hide Next;
    var late := Letter("a", "key-a", "c", "m", "x", 10, 100, "first", None);
    var early := Letter("b", "key-b", "c", "m", "x", 5, 100, "second", None);
    var one := StoreAndClaim(0, [], Init(0), late, 0, "1", 50);
    var s := Run(0, one).value;
    assert s.rows[0].dedupeKey == "key-a" && s.rows[0].slot == Some(0) && s.rows.Keys == {0};
    assert "key-a" != "key-b" by { assert "key-a"[4] != "key-b"[4]; }
    assert "1" != "2" by { assert "1"[0] != "2"[0]; }
    events := StoreAndClaim(0, one, s, early, 1, "2", 50);
    TwoLeasesAre(Run(0, events).value, 0, 1, "c", "m");
  }
}

/**
 * Many workers over the ledger collection (backend/attachments/fileLedger.ts): every `await` is a place
 * where other workers may run. A state machine of atomic steps, and what holds in every reachable state.
 */
module FileLedgerSystem {
  import opened Common
  import opened FileLedger
  import opened FileLedgerInvariant

  const MAX_TRIES: nat := 12

  datatype Snapshot = Snapshot(revision: nat, transfers: seq<StoredFile>)

  datatype Request = StatusOf | ChunkOf(index: int)

  datatype Reply = Bytes(payload: WireObject) | Status(status: FileStatus)

  /**
   * Where a worker waits. `guard` is the transfer as first located; `at` is the clock when the change was computed,
   * `sent` the clock when the checks before the commit passed and the update was sent. Once its update has landed as
   * commit number `commit` a worker still waits for a last trust check before it answers.
   */
  datatype Worker =
    | Starting(account: string, op: Op, guard: Option<StoredFile>, tries: nat)
    | AwaitingObject(account: string, op: Op, guard: Option<StoredFile>, tries: nat, before: Option<Snapshot>, at: int)
    | AwaitingTrust(account: string, op: Op, guard: Option<StoredFile>, tries: nat, before: Option<Snapshot>, at: int, after: seq<StoredFile>)
    | AwaitingReplace(account: string, op: Op, guard: Option<StoredFile>, tries: nat, before: Option<Snapshot>, at: int,
                      after: seq<StoredFile>, sent: int)
    | Landed(account: string, op: Op, guard: Option<StoredFile>, commit: nat)
    | ReadLocated(account: string, auth: Auth, id: string, request: Request, first: StoredFile)
    | ReadFetched(account: string, auth: Auth, id: string, request: Request, first: StoredFile, found: Option<WireObject>)
    | ReadFenced(account: string, auth: Auth, id: string, request: Request, first: StoredFile, found: Option<WireObject>,
                 current: StoredFile, seen: nat, fencedAt: int)

  /** A write that took effect: computed at `at`, sent to the database at `sent`, in effect from `landed`. */
  datatype Commit = Commit(account: string, op: Op, at: int, sent: int, landed: int)

  /** What a write that took effect told its caller, and when. */
  datatype Answered = Answered(commit: nat, at: int, error: Option<FileError>)

  /** A read that answered: its second ledger read saw the first `seen` commits. */
  datatype Release = Release(account: string, auth: Auth, id: string, request: Request, seen: nat, at: int, reply: Reply)

  datatype Sys = Sys(
    clock: int, docs: map<string, Doc>, workers: map<nat, Worker>,
    used: set<string>, born: set<string>, log: seq<Commit>, releases: seq<Release>, answers: seq<Answered>)

  datatype Event =
    | Tick(elapsed: nat)
    | BeginCreate(w: nat, auth: Auth, account: string, context: PC.Context)
    | BeginWrite(w: nat, account: string, op: Op)
    | BeginCleanup(w: nat, account: string)
    | Compute(w: nat)
    | FetchObject(w: nat)
    | Guard(w: nat)
    | Replace(w: nat)
    | Settle(w: nat)
    | BeginRead(w: nat, account: string, auth: Auth, id: string, request: Request)
    | ReadObject(w: nat)
    | ReadFence(w: nat)
    | Answer(w: nat)
    | Abort(w: nat)

  function DocOf(docs: map<string, Doc>, account: string): (doc: Option<Doc>)
  {
    if account in docs then Some(docs[account]) else None
  }

  function SnapshotOf(doc: Option<Doc>): (s: Option<Snapshot>)
  {
    match doc case None => None case Some(d) => Some(Snapshot(d.revision, d.transfers))
  }

  function SnapshotTransfers(before: Option<Snapshot>): (fs: seq<StoredFile>)
  {
    match before case None => [] case Some(b) => b.transfers
  }

  // ---------- the steps of a write ----------

  predicate CreateAdmitted(auth: Auth, c: PC.Context)
  {
    && c.conversationId == auth.conversationId
    && c.senderParticipantId == auth.participantId
    && c.senderIdentityReference == auth.identityReference
  }

  /** A put reads ciphertext back only for a slot that is already taken. */
  predicate NeedsObject(op: Op, es: seq<StoredFile>)
  {
    CarriesObject(op) && exists e | e in es :: e.Id() == op.id && op.slot.index in e.chunks
  }

  function Drop(s: Sys, w: nat): (t: Sys)
  {
    s.(workers := s.workers - {w})
  }

  function DoCompute(s: Sys, w: nat): (t: Sys)
    requires w in s.workers && s.workers[w].Starting? && ValidOp(s.workers[w].op)
  {
    var k := s.workers[w];
    var doc := DocOf(s.docs, k.account);
    var es := Expire(TransfersOf(doc), s.clock);
    if NeedsObject(k.op, es) then
      s.(workers := s.workers[w := AwaitingObject(k.account, k.op, k.guard, k.tries, SnapshotOf(doc), s.clock)])
    else match Change(k.op, es, s.clock, None)
      case Err(_) => Drop(s, w)
      case Ok(after) =>
        s.(workers := s.workers[w := AwaitingTrust(k.account, k.op, k.guard, k.tries, SnapshotOf(doc), s.clock, after)])
  }

  function DoFetchObject(s: Sys, w: nat): (t: Sys)
    requires w in s.workers && s.workers[w].AwaitingObject? && ValidOp(s.workers[w].op)
  {
    var k := s.workers[w];
    var fetched := FetchedFor(DocOf(s.docs, k.account), k.op);
    match Change(k.op, Expire(SnapshotTransfers(k.before), k.at), k.at, fetched)
    case Err(_) => Drop(s, w)
    case Ok(after) =>
      s.(workers := s.workers[w := AwaitingTrust(k.account, k.op, k.guard, k.tries, k.before, k.at, after)])
  }

  /** The revision test of `replace`: the document read before is still the one stored. */
  predicate CasSucceeds(docs: map<string, Doc>, account: string, before: Option<Snapshot>)
  {
    match before
    case None => account !in docs
    case Some(b) => account in docs && docs[account].revision == b.revision
  }

  predicate WritesContent(op: Op)
  {
    op.Put? || op.Complete?
  }

  /** The expiry check of a put or completion, made on the transfer as first located. */
  function ExpiryError(op: Op, guard: Option<StoredFile>, now: int): (e: Option<FileError>)
  {
    if WritesContent(op) && guard.Some? then LiveError(guard.value, now) else None
  }

  /** After the trust check the expiry check runs once more, and the update is sent; others may act before it lands. */
  function DoGuard(s: Sys, w: nat): (t: Sys)
    requires w in s.workers && s.workers[w].AwaitingTrust?
  {
    var k := s.workers[w];
    if ExpiryError(k.op, k.guard, s.clock).Some? then Drop(s, w)
    else
      s.(workers := s.workers[w := AwaitingReplace(k.account, k.op, k.guard, k.tries, k.before, k.at, k.after, s.clock)])
  }

  function DoReplace(s: Sys, w: nat): (t: Sys)
    requires w in s.workers && s.workers[w].AwaitingReplace?
  {
    var k := s.workers[w];
    if CasSucceeds(s.docs, k.account, k.before) then
      s.(docs := s.docs[k.account := Replaced(DocOf(s.docs, k.account), k.after, k.op, k.sent)],
         workers := s.workers[w := Landed(k.account, k.op, k.guard, |s.log|)],
         born := if k.op.Create? then s.born + {k.op.context.transferId} else s.born,
         log := s.log + [Commit(k.account, k.op, k.at, k.sent, s.clock)])
    else if k.tries + 1 < MAX_TRIES then
      s.(workers := s.workers[w := Starting(k.account, k.op, k.guard, k.tries + 1)])
    else Drop(s, w)
  }

  /** The check after the commit: a write that landed can still report that its transfer has expired. */
  function DoSettle(s: Sys, w: nat): (t: Sys)
    requires w in s.workers && s.workers[w].Landed?
  {
    var k := s.workers[w];
    Drop(s, w).(answers := s.answers + [Answered(k.commit, s.clock, ExpiryError(k.op, k.guard, s.clock))])
  }

  // ---------- the steps of a read ----------

  predicate ChunkReadable(auth: Auth, f: StoredFile, index: int, now: int)
  {
    && LiveError(f, now).None?
    && auth.participantId == f.context.recipientParticipantId
    && f.state == Available
    && 0 <= index < f.context.chunkCount && index in f.chunks
  }

  function StatusReply(auth: Auth, f: StoredFile): (v: FileStatus)
  {
    if auth.participantId != f.context.senderParticipantId && f.state != Available then View(f).(manifest := None) else View(f)
  }

  function DoBeginRead(s: Sys, w: nat, account: string, auth: Auth, id: string, request: Request): (t: Option<Sys>)
    requires account in s.docs
  {
    match Lookup(Expire(s.docs[account].transfers, s.clock), id)
    case None => None
    case Some(f) =>
      if !Authorized(auth, f, false) then None
      else match request
        case StatusOf => Some(s.(workers := s.workers[w := ReadFetched(account, auth, id, request, f, None)]))
        case ChunkOf(index) =>
          if !ChunkReadable(auth, f, index, s.clock) then None
          else Some(s.(workers := s.workers[w := ReadLocated(account, auth, id, request, f)]))
  }

  function DoReadObject(s: Sys, w: nat): (t: Sys)
    requires w in s.workers && s.workers[w].ReadLocated?
  {
    var k := s.workers[w];
    var held := Held(ObjectsOf(DocOf(s.docs, k.account)), k.id);
    if k.request.ChunkOf? && k.request.index >= 0 && k.request.index in held then
      s.(workers := s.workers[w := ReadFetched(k.account, k.auth, k.id, k.request, k.first, Some(held[k.request.index]))])
    else Drop(s, w)
  }

  /** The second ledger read. Afterwards only the asynchronous trust check separates the worker from its answer. */
  function DoReadFence(s: Sys, w: nat): (t: Sys)
    requires w in s.workers && s.workers[w].ReadFetched?
  {
    var k := s.workers[w];
    match Lookup(Expire(TransfersOf(DocOf(s.docs, k.account)), s.clock), k.id)
    case None => Drop(s, w)
    case Some(current) =>
      if !Authorized(k.auth, current, false) then Drop(s, w)
      else s.(workers := s.workers[w := ReadFenced(k.account, k.auth, k.id, k.request, k.first, k.found, current, |s.log|, s.clock)])
  }

  /** Expiry is projected once more; ciphertext leaves only if the state is the one it was fetched under. */
  function DoAnswer(s: Sys, w: nat): (t: Sys)
    requires w in s.workers && s.workers[w].ReadFenced?
  {
    var k := s.workers[w];
    var now := ExpireFile(k.current, s.clock);
    if !Keep(k.current, s.clock) then Drop(s, w)
    else match k.request
      case StatusOf =>
        Drop(s, w).(releases := s.releases + [Release(k.account, k.auth, k.id, k.request, k.seen, s.clock, Status(StatusReply(k.auth, now)))])
      case ChunkOf(_) =>
        if now.state == k.first.state && k.found.Some? then
          Drop(s, w).(releases := s.releases + [Release(k.account, k.auth, k.id, k.request, k.seen, s.clock, Bytes(k.found.value))])
        else Drop(s, w)
  }

  // ---------- the machine ----------

  function Next(s: Sys, e: Event): (t: Option<Sys>)
  {
    match e
    case Tick(elapsed) => Some(s.(clock := s.clock + elapsed))
    case BeginCreate(w, auth, account, c) =>
      if w in s.workers || c.transferId in s.used || !ValidFileContext(c) || !CreateAdmitted(auth, c) then None
      else Some(s.(used := s.used + {c.transferId}, workers := s.workers[w := Starting(account, Create(c), None, 0)]))
    case BeginWrite(w, account, op) =>
      if w in s.workers || !OnTransfer(op) || account !in s.docs || Lookup(s.docs[account].transfers, op.id).None? then None
      else Some(s.(workers := s.workers[w := Starting(account, op, Lookup(s.docs[account].transfers, op.id), 0)]))
    case BeginCleanup(w, account) =>
      if w in s.workers || account !in s.docs then None
      else Some(s.(workers := s.workers[w := Starting(account, Cleanup, None, 0)]))
    case Compute(w) =>
      if w in s.workers && s.workers[w].Starting? && ValidOp(s.workers[w].op) then Some(DoCompute(s, w)) else None
    case FetchObject(w) =>
      if w in s.workers && s.workers[w].AwaitingObject? && ValidOp(s.workers[w].op) then Some(DoFetchObject(s, w)) else None
    case Guard(w) =>
      if w in s.workers && s.workers[w].AwaitingTrust? then Some(DoGuard(s, w)) else None
    case Replace(w) =>
      if w in s.workers && s.workers[w].AwaitingReplace? then Some(DoReplace(s, w)) else None
    case Settle(w) =>
      if w in s.workers && s.workers[w].Landed? then Some(DoSettle(s, w)) else None
    case BeginRead(w, account, auth, id, request) =>
      if w in s.workers || account !in s.docs then None else DoBeginRead(s, w, account, auth, id, request)
    case ReadObject(w) =>
      if w in s.workers && s.workers[w].ReadLocated? then Some(DoReadObject(s, w)) else None
    case ReadFence(w) =>
      if w in s.workers && s.workers[w].ReadFetched? then Some(DoReadFence(s, w)) else None
    case Answer(w) =>
      if w in s.workers && s.workers[w].ReadFenced? then Some(DoAnswer(s, w)) else None
    case Abort(w) => Some(Drop(s, w))
  }

  function Init(clock: int): (s: Sys)
  {
    Sys(clock, map[], map[], {}, {}, [], [], [])
  }

  /** The state after a whole run, when every step of it was possible. */
  function Run(clock: int, events: seq<Event>): (s: Option<Sys>)
  {
    if events == [] then Some(Init(clock))
    else match Run(clock, events[..|events| - 1])
      case None => None
      case Some(s) => Next(s, events[|events| - 1])
  }

  // ---------- the serial reference ----------

  /** The collection after running the logged operations one at a time, in log order; none of them may fail. */
  function Replay(log: seq<Commit>): (docs: Option<map<string, Doc>>)
  {
    if log == [] then Some(map[])
    else
      var c := log[|log| - 1];
      match Replay(log[..|log| - 1])
      case None => None
      case Some(docs) =>
        if !ValidOp(c.op) then None
        else match Serial(DocOf(docs, c.account), c.op, c.at, c.sent)
          case Err(_) => None
          case Ok(d) => Some(docs[c.account := d])
  }

  // ---------- the invariant ----------

  predicate Timely(log: seq<Commit>, account: string, at: int)
  {
    forall c | c in log && c.account == account :: c.landed <= at
  }

  /** Facts about the document a write was computed from, good for as long as its revision test would pass. */
  predicate SnapshotOk(s: Sys, account: string, before: Option<Snapshot>, at: int)
  {
    && at <= s.clock
    && (before.Some? ==> account in s.docs && before.value.revision <= s.docs[account].revision)
    && (CasSucceeds(s.docs, account, before) ==>
        && SnapshotTransfers(before) == TransfersOf(DocOf(s.docs, account))
        && Timely(s.log, account, at)
        && CreatedBy(SnapshotTransfers(before), at))
  }

  predicate SameTransfer(g: StoredFile, r: Option<StoredFile>)
  {
    r.Some? ==> r.value.context == g.context && r.value.expiresAt == g.expiresAt
  }

  predicate OpOk(s: Sys, account: string, op: Op, guard: Option<StoredFile>)
  {
    && ValidOp(op)
    && (op.Create? ==> op.context.transferId in s.used && op.context.transferId !in s.born)
    && (OnTransfer(op) ==>
        && guard.Some? && guard.value.Id() == op.id && op.id in s.born && account in s.docs
        && SameTransfer(guard.value, Lookup(s.docs[account].transfers, op.id)))
  }

  predicate ReaderOk(s: Sys, account: string, auth: Auth, id: string, request: Request, first: StoredFile)
  {
    && account in s.docs && id in s.born && first.Id() == id
    && (request.ChunkOf? ==>
        && first.state == Available && auth.participantId == first.context.recipientParticipantId
        && request.index >= 0 && request.index in first.chunks
        && SameOrGone(first, Lookup(s.docs[account].transfers, id)))
  }

  predicate HeldIs(d: Doc, id: string, index: int, payload: Option<WireObject>)
  {
    index >= 0 && index in Held(d.objects, id) && Some(Held(d.objects, id)[index]) == payload
  }

  predicate FencedOk(s: Sys, k: Worker)
    requires k.ReadFenced?
  {
    && k.seen <= |s.log| && Replay(s.log[..k.seen]).Some? && k.account in Replay(s.log[..k.seen]).value
    && var latest := Replay(s.log[..k.seen]).value[k.account];
       && Lookup(latest.transfers, k.id).Some?
       && Authorized(k.auth, k.current, false)
       && k.fencedAt <= s.clock && k.current == ExpireFile(Lookup(latest.transfers, k.id).value, k.fencedAt)
       && (k.request.ChunkOf? ==> k.first.state == Available)
       && (k.request.ChunkOf? && k.current.state == Available ==>
           && HeldIs(latest, k.id, k.request.index, k.found)
           && k.auth.participantId == k.current.context.recipientParticipantId)
  }

  predicate ComputedOk(s: Sys, account: string, op: Op, guard: Option<StoredFile>, before: Option<Snapshot>, at: int, after: seq<StoredFile>)
  {
    && OpOk(s, account, op, guard) && SnapshotOk(s, account, before, at)
    && (CasSucceeds(s.docs, account, before) ==>
        Change(op, Expire(SnapshotTransfers(before), at), at, FetchedFor(DocOf(s.docs, account), op)) == Ok(after))
  }

  /** The transfer a commit acted on, as the ledger held it right after that commit. */
  function TargetAfter(log: seq<Commit>, i: nat): (f: Option<StoredFile>)
    requires i < |log|
  {
    if OnTransfer(log[i].op) && Replay(log[..i + 1]).Some? && log[i].account in Replay(log[..i + 1]).value
    then Lookup(Replay(log[..i + 1]).value[log[i].account].transfers, log[i].op.id) else None
  }

  /** A put or completion left a transfer neither canceled nor expired, and unexpired when it was sent. */
  predicate CommitLive(log: seq<Commit>, i: nat)
    requires i < |log|
  {
    WritesContent(log[i].op) ==> TargetAfter(log, i).Some? && LiveError(TargetAfter(log, i).value, log[i].sent).None?
  }

  predicate LandedOk(log: seq<Commit>, account: string, op: Op, guard: Option<StoredFile>, commit: nat)
  {
    && commit < |log| && log[commit].account == account && log[commit].op == op
    && (WritesContent(op) ==>
          && guard.Some? && LiveError(guard.value, log[commit].sent).None?
          && TargetAfter(log, commit).Some? && TargetAfter(log, commit).value.expiresAt == guard.value.expiresAt)
  }

  /** A put or completion reports that its transfer has expired exactly when it has by the time of the answer. */
  predicate AnswerOk(log: seq<Commit>, a: Answered)
  {
    && a.commit < |log| && log[a.commit].landed <= a.at
    && (WritesContent(log[a.commit].op) ==>
          && TargetAfter(log, a.commit).Some?
          && a.error == if TargetAfter(log, a.commit).value.expiresAt <= a.at then Some(ExpiredError) else None)
    && (!WritesContent(log[a.commit].op) ==> a.error.None?)
  }

  predicate WorkerOk(s: Sys, k: Worker)
  {
    match k
    case Starting(account, op, guard, _) => OpOk(s, account, op, guard)
    case AwaitingObject(account, op, guard, _, before, at) =>
      OpOk(s, account, op, guard) && SnapshotOk(s, account, before, at)
    case AwaitingTrust(account, op, guard, _, before, at, after) => ComputedOk(s, account, op, guard, before, at, after)
    case AwaitingReplace(account, op, guard, _, before, at, after, sent) =>
      && ComputedOk(s, account, op, guard, before, at, after)
      && at <= sent <= s.clock && ExpiryError(op, guard, sent).None?
    case Landed(account, op, guard, commit) => LandedOk(s.log, account, op, guard, commit)
    case ReadLocated(account, auth, id, request, first) => request.ChunkOf? && ReaderOk(s, account, auth, id, request, first)
    case ReadFetched(account, auth, id, request, first, found) =>
      && ReaderOk(s, account, auth, id, request, first)
      && (request.ChunkOf? && Lookup(s.docs[account].transfers, id) == Some(first) ==>
          HeldIs(s.docs[account], id, request.index, found))
    case ReadFenced(_, _, _, _, _, _, _, _, _) => FencedOk(s, k)
  }

  /** The id a worker means to create, if that is what it does. */
  function Creating(k: Worker): (id: Option<string>)
  {
    if (k.Starting? || k.AwaitingObject? || k.AwaitingTrust? || k.AwaitingReplace?) && k.op.Create? then Some(k.op.context.transferId) else None
  }

  predicate CreatesDistinct(workers: map<nat, Worker>)
  {
    forall v, w | v in workers && w in workers && v != w && Creating(workers[v]).Some? :: Creating(workers[v]) != Creating(workers[w])
  }

  predicate AllBorn(d: Doc, born: set<string>)
  {
    forall f | f in d.transfers :: f.Id() in born
  }

  ghost predicate DocsOk(s: Sys)
  {
    forall a | a in s.docs :: DocOk(s.docs[a]) && CreatedBy(s.docs[a].transfers, s.clock) && AllBorn(s.docs[a], s.born)
  }

  predicate LogOrdered(log: seq<Commit>, clock: int)
  {
    && (forall i | 0 <= i < |log| :: log[i].at <= log[i].sent <= log[i].landed <= clock)
    && (forall i, j | 0 <= i < j < |log| && log[i].account == log[j].account :: log[i].landed <= log[j].at)
  }

  /**
   * An answer reports the ledger its second read saw: bytes leave only for a chunk of a transfer that was
   * available there and has not expired since, and they are the bytes stored for that index.
   */
  predicate ReleaseOk(log: seq<Commit>, r: Release)
  {
    && r.seen <= |log| && Replay(log[..r.seen]).Some? && r.account in Replay(log[..r.seen]).value
    && var latest := Replay(log[..r.seen]).value[r.account];
       && Lookup(latest.transfers, r.id).Some?
       && var f := Lookup(latest.transfers, r.id).value;
          && Authorized(r.auth, f, false)
          && match r.reply
             case Bytes(payload) =>
               && r.request.ChunkOf?
               && r.auth.participantId == f.context.recipientParticipantId
               && f.state == Available && r.at < f.expiresAt
               && HeldIs(latest, r.id, r.request.index, Some(payload))
             case Status(status) =>
               Keep(f, r.at) && status == StatusReply(r.auth, ExpireFile(f, r.at))
  }

  ghost predicate Inv(s: Sys)
  {
    && Replay(s.log) == Some(s.docs)
    && DocsOk(s)
    && s.born <= s.used
    && CreatesDistinct(s.workers)
    && LogOrdered(s.log, s.clock)
    && (forall w | w in s.workers :: WorkerOk(s, s.workers[w]))
    && (forall r | r in s.releases :: ReleaseOk(s.log, r))
    && (forall i | 0 <= i < |s.log| :: CommitLive(s.log, i))
    && (forall a | a in s.answers :: AnswerOk(s.log, a))
  }
}

/** Every step of every worker keeps the system invariant, so it holds along every run. */
module FileLedgerRuns {
  import opened Common
  import opened FileLedger
  import opened FileLedgerInvariant
  import opened FileLedgerSystem

  // ---------- steps that commit nothing ----------

  /** Only the clock and the set of issued ids may differ. */
  ghost predicate Quiet(s: Sys, t: Sys)
  {
    t.docs == s.docs && t.log == s.log && t.born == s.born && s.used <= t.used && s.clock <= t.clock
    && t.releases == s.releases && t.answers == s.answers
  }

  lemma WorkerOkQuiet(s: Sys, t: Sys, k: Worker)
    requires Quiet(s, t) && WorkerOk(s, k)
    ensures WorkerOk(t, k)
  {
  }

  /** The parts of the invariant that are not about workers. */
  ghost predicate Core(s: Sys)
  {
    && Replay(s.log) == Some(s.docs)
    && DocsOk(s)
    && s.born <= s.used
    && LogOrdered(s.log, s.clock)
    && (forall r | r in s.releases :: ReleaseOk(s.log, r))
    && (forall i | 0 <= i < |s.log| :: CommitLive(s.log, i))
    && (forall a | a in s.answers :: AnswerOk(s.log, a))
  }

  lemma CoreQuiet(s: Sys, t: Sys)
    requires Core(s) && Quiet(s, t) && t.born <= t.used
    ensures Core(t)
  {
  }

  /** Setting one worker to an acceptable state keeps the invariant. */
  lemma InvWithWorker(s: Sys, t: Sys, w: nat, k: Worker)
    requires Inv(s) && Quiet(s, t) && t.workers == s.workers[w := k]
    requires WorkerOk(t, k)
    requires Creating(k).Some? ==>
      || (w in s.workers && Creating(s.workers[w]) == Creating(k))
      || Creating(k).value !in s.used
    requires t.born <= t.used
    ensures Inv(t)
  {
    hide DocOk, Replay, ReleaseOk, LogOrdered;
    CoreQuiet(s, t);
    forall v | v in t.workers ensures WorkerOk(t, t.workers[v]) {
      if v != w { WorkerOkQuiet(s, t, s.workers[v]); }
    }
    forall v, u | v in t.workers && u in t.workers && v != u && Creating(t.workers[v]).Some?
      ensures Creating(t.workers[v]) != Creating(t.workers[u])
    {
      assert v in s.workers && v != w ==> WorkerOk(s, s.workers[v]);
      assert u in s.workers && u != w ==> WorkerOk(s, s.workers[u]);
    }
  }

  lemma InvDrop(s: Sys, w: nat)
    requires Inv(s)
    ensures Inv(Drop(s, w))
  {
    hide DocOk, Replay, ReleaseOk, LogOrdered;
    var t := Drop(s, w);
    CoreQuiet(s, t);
    forall v | v in t.workers ensures WorkerOk(t, t.workers[v]) { WorkerOkQuiet(s, t, s.workers[v]); }
  }

  lemma InvTick(s: Sys, elapsed: nat)
    requires Inv(s)
    ensures Inv(Next(s, Tick(elapsed)).value)
  {
    hide DocOk, WorkerOk, Replay, ReleaseOk;
    var t := s.(clock := s.clock + elapsed);
    CoreQuiet(s, t);
    forall v | v in t.workers ensures WorkerOk(t, t.workers[v]) { WorkerOkQuiet(s, t, s.workers[v]); }
  }

  lemma BornWhenFound(s: Sys, account: string, id: string)
    requires DocsOk(s) && account in s.docs && Lookup(s.docs[account].transfers, id).Some?
    ensures id in s.born
  {
  }

  lemma ExpiredOnce(f: StoredFile, t1: int, t2: int)
    requires t1 <= t2
    ensures ExpireFile(ExpireFile(f, t1), t2) == ExpireFile(f, t2)
    ensures Keep(ExpireFile(f, t1), t2) == Keep(f, t2)
  {
  }

  /** A freshly read document satisfies every snapshot fact. */
  lemma FreshSnapshot(s: Sys, account: string)
    requires Inv(s)
    ensures SnapshotOk(s, account, SnapshotOf(DocOf(s.docs, account)), s.clock)
    ensures CasSucceeds(s.docs, account, SnapshotOf(DocOf(s.docs, account)))
  {
    forall c | c in s.log && c.account == account ensures c.landed <= s.clock {
      var i :| 0 <= i < |s.log| && s.log[i] == c;
    }
  }

  /** Stored ciphertext does not influence an operation that does not need it. */
  lemma FetchedIrrelevant(op: Op, es: seq<StoredFile>, now: int, fetched: Option<WireObject>)
    requires ValidOp(op) && !NeedsObject(op, es)
    ensures Change(op, es, now, fetched) == Change(op, es, now, None)
  {
    if OnTransfer(op) && FindIndex(es, op.id).Some? {
      assert es[FindIndex(es, op.id).value] in es;
    }
  }

  lemma InvCompute(s: Sys, w: nat)
    requires Inv(s) && w in s.workers && s.workers[w].Starting? && ValidOp(s.workers[w].op)
    ensures Inv(DoCompute(s, w))
  {
    hide DocOk, Replay, ReleaseOk, LogOrdered;
    var k, t := s.workers[w], DoCompute(s, w);
    assert WorkerOk(s, k);
    FreshSnapshot(s, k.account);
    var doc := DocOf(s.docs, k.account);
    var es := Expire(TransfersOf(doc), s.clock);
    if NeedsObject(k.op, es) {
      InvWithWorker(s, t, w, t.workers[w]);
    } else {
      FetchedIrrelevant(k.op, es, s.clock, FetchedFor(doc, k.op));
      if Change(k.op, es, s.clock, None).Ok? {
        InvWithWorker(s, t, w, t.workers[w]);
      } else {
        InvDrop(s, w);
      }
    }
  }

  lemma InvFetchObject(s: Sys, w: nat)
    requires Inv(s) && w in s.workers && s.workers[w].AwaitingObject? && ValidOp(s.workers[w].op)
    ensures Inv(DoFetchObject(s, w))
  {
    hide DocOk, Replay, ReleaseOk, LogOrdered;
    var k, t := s.workers[w], DoFetchObject(s, w);
    assert WorkerOk(s, k);
    var fetched := FetchedFor(DocOf(s.docs, k.account), k.op);
    if Change(k.op, Expire(SnapshotTransfers(k.before), k.at), k.at, fetched).Ok? {
      InvWithWorker(s, t, w, t.workers[w]);
    } else {
      InvDrop(s, w);
    }
  }

  lemma InvBegin(s: Sys, e: Event)
    requires Inv(s) && (e.BeginCreate? || e.BeginWrite? || e.BeginCleanup?) && Next(s, e).Some?
    ensures Inv(Next(s, e).value)
  {
    hide DocOk, Replay, ReleaseOk, LogOrdered;
    var t := Next(s, e).value;
    if e.BeginWrite? { BornWhenFound(s, e.account, e.op.id); }
    InvWithWorker(s, t, e.w, t.workers[e.w]);
  }

  /** What the first ledger read of a download establishes. */
  lemma LocatedOk(s: Sys, account: string, auth: Auth, id: string, request: Request)
    requires DocsOk(s) && account in s.docs
    requires var r := Lookup(Expire(s.docs[account].transfers, s.clock), id);
      r.Some? && (request.ChunkOf? ==> ChunkReadable(auth, r.value, request.index, s.clock))
    ensures ReaderOk(s, account, auth, id, request, Lookup(Expire(s.docs[account].transfers, s.clock), id).value)
  {
    LookupExpire(s.docs[account].transfers, s.clock, id);
    BornWhenFound(s, account, id);
  }

  lemma InvBeginRead(s: Sys, w: nat, account: string, auth: Auth, id: string, request: Request)
    requires Inv(s) && w !in s.workers && account in s.docs && DoBeginRead(s, w, account, auth, id, request).Some?
    ensures Inv(DoBeginRead(s, w, account, auth, id, request).value)
  {
    hide DocOk, Replay, ReleaseOk, LogOrdered;
    var t := DoBeginRead(s, w, account, auth, id, request).value;
    LocatedOk(s, account, auth, id, request);
    InvWithWorker(s, t, w, t.workers[w]);
  }

  lemma InvReadObject(s: Sys, w: nat)
    requires Inv(s) && w in s.workers && s.workers[w].ReadLocated?
    ensures Inv(DoReadObject(s, w))
  {
    hide DocOk, Replay, ReleaseOk, LogOrdered;
    var k, t := s.workers[w], DoReadObject(s, w);
    assert WorkerOk(s, k);
    if w in t.workers {
      InvWithWorker(s, t, w, t.workers[w]);
    } else {
      InvDrop(s, w);
    }
  }

  /** What the second ledger read establishes, with all commits so far as its view. */
  lemma FenceOk(s: Sys, k: Worker, fenced: Worker)
    requires k.ReadFetched? && Replay(s.log) == Some(s.docs) && DocsOk(s) && WorkerOk(s, k)
    requires Lookup(Expire(s.docs[k.account].transfers, s.clock), k.id).Some?
    requires Authorized(k.auth, Lookup(Expire(s.docs[k.account].transfers, s.clock), k.id).value, false)
    requires fenced == ReadFenced(k.account, k.auth, k.id, k.request, k.first, k.found,
                                  Lookup(Expire(s.docs[k.account].transfers, s.clock), k.id).value, |s.log|, s.clock)
    ensures FencedOk(s, fenced)
  {
    hide Replay, ReleaseOk, LogOrdered, DocOk, Expire, Lookup;
    var d := s.docs[k.account];
    DocDistinct(d);
    assert s.log[..|s.log|] == s.log;
    LookupExpire(d.transfers, s.clock, k.id);
    var f := Lookup(d.transfers, k.id).value;
    assert fenced.current == ExpireFile(f, s.clock);
    if k.request.ChunkOf? && fenced.current.state == Available {
      assert fenced.current == f && f.state == Available;
      assert SameOrGone(k.first, Some(f));
    }
  }

  lemma DocDistinct(d: Doc)
    requires DocOk(d)
    ensures DistinctIds(d.transfers)
  {
  }

  lemma InvReadFence(s: Sys, w: nat)
    requires Inv(s) && w in s.workers && s.workers[w].ReadFetched?
    ensures Inv(DoReadFence(s, w))
  {
    hide DocOk, ReleaseOk, LogOrdered, Replay, FencedOk;
    var k, t := s.workers[w], DoReadFence(s, w);
    assert WorkerOk(s, k);
    if w in t.workers {
      FenceOk(s, k, t.workers[w]);
      WorkerOkQuiet(s, t, t.workers[w]);
      InvWithWorker(s, t, w, t.workers[w]);
    } else {
      InvDrop(s, w);
    }
  }

  lemma InvAnswered(s: Sys, r: Release)
    requires Inv(s) && ReleaseOk(s.log, r)
    ensures Inv(s.(releases := s.releases + [r]))
  {
    hide DocOk, ReleaseOk, LogOrdered, Replay;
    var t := s.(releases := s.releases + [r]);
    forall v | v in t.workers ensures WorkerOk(t, t.workers[v]) { assert WorkerOk(s, s.workers[v]); }
  }

  lemma InvAnswer(s: Sys, w: nat)
    requires Inv(s) && w in s.workers && s.workers[w].ReadFenced?
    ensures Inv(DoAnswer(s, w))
  {
    hide DocOk, ReleaseOk, LogOrdered, Replay, FencedOk;
    var k, t, u := s.workers[w], DoAnswer(s, w), Drop(s, w);
    assert WorkerOk(s, k);
    InvDrop(s, w);
    if t != u {
      var r := t.releases[|t.releases| - 1];
      ReleaseIsOk(s, k, r);
      InvAnswered(u, r);
    }
  }

  lemma ReleaseIsOk(s: Sys, k: Worker, r: Release)
    requires k.ReadFenced? && FencedOk(s, k) && Keep(k.current, s.clock)
    requires r.account == k.account && r.auth == k.auth && r.id == k.id && r.request == k.request && r.seen == k.seen && r.at == s.clock
    requires match k.request
      case StatusOf => r.reply == Status(StatusReply(k.auth, ExpireFile(k.current, s.clock)))
      case ChunkOf(_) => ExpireFile(k.current, s.clock).state == k.first.state && k.found.Some? && r.reply == Bytes(k.found.value)
    ensures ReleaseOk(s.log, r)
  {
    var latest := Replay(s.log[..k.seen]).value[k.account];
    ExpiredOnce(Lookup(latest.transfers, k.id).value, k.fencedAt, s.clock);
  }

  // ---------- the step that commits ----------

  lemma AllBornAfter(op: Op, fs: seq<StoredFile>, at: int, fetched: Option<WireObject>, id: string)
    requires ValidOp(op) && DistinctIds(fs) && FreshFor(op, fs)
    requires Change(op, Expire(fs, at), at, fetched).Ok?
    requires Lookup(Change(op, Expire(fs, at), at, fetched).value, id).Some?
    ensures (op.Create? && op.context.transferId == id) || Lookup(fs, id).Some?
  {
    LookupChange(op, fs, at, fetched, id);
  }

  /** Contexts and expiry times never change, and a dropped id never comes back. */
  lemma SameTransferAfter(op: Op, fs: seq<StoredFile>, at: int, fetched: Option<WireObject>, g: StoredFile)
    requires ValidOp(op) && DistinctIds(fs) && FreshFor(op, fs)
    requires Change(op, Expire(fs, at), at, fetched).Ok?
    requires op.Create? ==> op.context.transferId != g.Id()
    requires SameTransfer(g, Lookup(fs, g.Id()))
    ensures SameTransfer(g, Lookup(Change(op, Expire(fs, at), at, fetched).value, g.Id()))
  {
    LookupChange(op, fs, at, fetched, g.Id());
    SameTransferStep(op, Lookup(fs, g.Id()), at, fetched, g);
  }

  lemma SameTransferStep(op: Op, r: Option<StoredFile>, at: int, fetched: Option<WireObject>, g: StoredFile)
    requires ValidOp(op) && SameTransfer(g, r)
    requires op.Create? ==> op.context.transferId != g.Id()
    ensures SameTransfer(g, NextFile(r, g.Id(), op, at, fetched))
  {
    if r.Some? && OnTransfer(op) && Act(op, ExpireFile(r.value, at), at, fetched).Ok? {
      ActKeepsId(op, ExpireFile(r.value, at), at, fetched);
    }
  }

  lemma ActOnAvailable(op: Op, f: StoredFile, now: int, fetched: Option<WireObject>)
    requires OnTransfer(op) && f.state == Available && Act(op, f, now, fetched).Ok?
    ensures SameOrGone(f, Some(Act(op, f, now, fetched).value))
  {
  }

  lemma ActOnDead(op: Op, f: StoredFile, now: int, fetched: Option<WireObject>)
    requires OnTransfer(op) && (f.state == Canceled || f.state == Expired) && Act(op, f, now, fetched).Ok?
    ensures Act(op, f, now, fetched).value.state == f.state && Act(op, f, now, fetched).value.context == f.context
  {
  }

  /** A transfer seen available can only stay as it is, die, or go. */
  lemma SameOrGoneAfter(op: Op, fs: seq<StoredFile>, at: int, fetched: Option<WireObject>, f: StoredFile)
    requires ValidOp(op) && DistinctIds(fs) && FreshFor(op, fs)
    requires Change(op, Expire(fs, at), at, fetched).Ok?
    requires op.Create? ==> op.context.transferId != f.Id()
    requires f.state == Available && SameOrGone(f, Lookup(fs, f.Id()))
    ensures SameOrGone(f, Lookup(Change(op, Expire(fs, at), at, fetched).value, f.Id()))
  {
    LookupChange(op, fs, at, fetched, f.Id());
    SameOrGoneStep(op, Lookup(fs, f.Id()), at, fetched, f);
  }

  lemma SameOrGoneStep(op: Op, r: Option<StoredFile>, at: int, fetched: Option<WireObject>, f: StoredFile)
    requires ValidOp(op) && f.state == Available && SameOrGone(f, r)
    requires op.Create? ==> op.context.transferId != f.Id()
    ensures SameOrGone(f, NextFile(r, f.Id(), op, at, fetched))
  {
    if r.Some? && OnTransfer(op) && Act(op, ExpireFile(r.value, at), at, fetched).Ok? {
      var e := ExpireFile(r.value, at);
      if e.state == Available { ActOnAvailable(op, e, at, fetched); } else { ActOnDead(op, e, at, fetched); }
    }
  }

  /** One commit by worker `w`, in terms of the serial operation it equals. */
  ghost predicate Commits(s: Sys, t: Sys, account: string, op: Op, at: int, sent: int)
  {
    && ValidOp(op)
    && OptDocOk(DocOf(s.docs, account)) && FreshFor(op, TransfersOf(DocOf(s.docs, account)))
    && Serial(DocOf(s.docs, account), op, at, sent).Ok?
    && t.docs == s.docs[account := Serial(DocOf(s.docs, account), op, at, sent).value]
    && t.clock == s.clock && t.used == s.used
    && t.born == (if op.Create? then s.born + {op.context.transferId} else s.born)
    && t.log == s.log + [Commit(account, op, at, sent, s.clock)]
    && t.releases == s.releases && t.answers == s.answers
  }

  lemma SnapshotAfterCommit(s: Sys, t: Sys, account: string, op: Op, at: int, sent: int, a: string, before: Option<Snapshot>, when: int)
    requires Commits(s, t, account, op, at, sent) && SnapshotOk(s, a, before, when)
    ensures SnapshotOk(t, a, before, when)
    ensures CasSucceeds(t.docs, a, before) ==> CasSucceeds(s.docs, a, before) && DocOf(t.docs, a) == DocOf(s.docs, a)
  {
  }

  lemma OpAfterCommit(s: Sys, t: Sys, account: string, op: Op, at: int, sent: int, a: string, pending: Op, guard: Option<StoredFile>)
    requires Commits(s, t, account, op, at, sent) && OpOk(s, a, pending, guard)
    requires op.Create? ==> op.context.transferId !in s.born
    requires op.Create? && pending.Create? ==> op.context.transferId != pending.context.transferId
    ensures OpOk(t, a, pending, guard)
  {
    if OnTransfer(pending) && a == account {
      var doc := DocOf(s.docs, account);
      SameTransferAfter(op, TransfersOf(doc), at, FetchedFor(doc, op), guard.value);
    }
  }

  lemma ReaderAfterCommit(s: Sys, t: Sys, account: string, op: Op, at: int, sent: int, a: string, auth: Auth, id: string, request: Request, first: StoredFile)
    requires Commits(s, t, account, op, at, sent) && ReaderOk(s, a, auth, id, request, first)
    requires op.Create? ==> op.context.transferId !in s.born
    ensures ReaderOk(t, a, auth, id, request, first)
  {
    if request.ChunkOf? && a == account {
      var doc := DocOf(s.docs, account);
      SameOrGoneAfter(op, TransfersOf(doc), at, FetchedFor(doc, op), first);
    }
  }

  /** While the transfer a reader saw is still there unchanged, so is the ciphertext it fetched. */
  lemma FoundAfterCommit(s: Sys, t: Sys, account: string, op: Op, at: int, sent: int, a: string, auth: Auth, id: string,
                         request: Request, first: StoredFile, found: Option<WireObject>)
    requires Commits(s, t, account, op, at, sent) && ReaderOk(s, a, auth, id, request, first)
    requires op.Create? ==> op.context.transferId !in s.born
    requires request.ChunkOf?
    requires Lookup(s.docs[a].transfers, id) == Some(first) ==> HeldIs(s.docs[a], id, request.index, found)
    requires Lookup(t.docs[a].transfers, id) == Some(first)
    ensures HeldIs(t.docs[a], id, request.index, found)
  {
    if a == account {
      var d := s.docs[a];
      LookupChange(op, d.transfers, at, FetchedFor(Some(d), op), id);
      CameFromItself(Lookup(d.transfers, id), id, op, at, FetchedFor(Some(d), op), first);
      AvailableIsFrozen(d, op, at, sent, first);
    }
  }

  lemma CameFromItself(r: Option<StoredFile>, id: string, op: Op, at: int, fetched: Option<WireObject>, first: StoredFile)
    requires ValidOp(op) && first.state == Available && first.Id() == id && SameOrGone(first, r)
    requires op.Create? ==> op.context.transferId != id
    requires NextFile(r, id, op, at, fetched) == Some(first)
    ensures r == Some(first)
  {
  }

  lemma PrefixKept(log: seq<Commit>, c: Commit, n: nat)
    requires n <= |log|
    ensures (log + [c])[..n] == log[..n]
  {
  }

  lemma WorkerAfterCommit(s: Sys, t: Sys, account: string, op: Op, at: int, sent: int, k: Worker)
    requires Commits(s, t, account, op, at, sent) && WorkerOk(s, k)
    requires op.Create? ==> op.context.transferId !in s.born
    requires op.Create? ==> Creating(k) != Some(op.context.transferId)
    ensures WorkerOk(t, k)
  {
    match k {
      case Starting(a, pending, guard, _) =>
        OpAfterCommit(s, t, account, op, at, sent, a, pending, guard);
      case AwaitingObject(a, pending, guard, _, before, when) =>
        OpAfterCommit(s, t, account, op, at, sent, a, pending, guard);
        SnapshotAfterCommit(s, t, account, op, at, sent, a, before, when);
      case AwaitingTrust(a, pending, guard, _, before, when, after) =>
        OpAfterCommit(s, t, account, op, at, sent, a, pending, guard);
        SnapshotAfterCommit(s, t, account, op, at, sent, a, before, when);
      case Landed(a, pending, guard, commit) =>
        TargetKept(s.log, Commit(account, op, at, sent, s.clock), commit);
      case AwaitingReplace(a, pending, guard, _, before, when, after, _) =>
        OpAfterCommit(s, t, account, op, at, sent, a, pending, guard);
        SnapshotAfterCommit(s, t, account, op, at, sent, a, before, when);
      case ReadLocated(a, auth, id, request, first) =>
        ReaderAfterCommit(s, t, account, op, at, sent, a, auth, id, request, first);
      case ReadFetched(a, auth, id, request, first, found) =>
        ReaderAfterCommit(s, t, account, op, at, sent, a, auth, id, request, first);
        if request.ChunkOf? && Lookup(t.docs[a].transfers, id) == Some(first) {
          FoundAfterCommit(s, t, account, op, at, sent, a, auth, id, request, first, found);
        }
      case ReadFenced(_, _, _, _, _, _, _, seen, _) =>
        PrefixKept(s.log, Commit(account, op, at, sent, s.clock), seen);
    }
  }

  lemma DocsAfterCommit(s: Sys, t: Sys, account: string, op: Op, at: int, sent: int)
    requires Commits(s, t, account, op, at, sent) && DocsOk(s)
    requires at <= sent <= s.clock && CreatedBy(TransfersOf(DocOf(s.docs, account)), at)
    ensures DocsOk(t)
  {
    var doc := DocOf(s.docs, account);
    SerialKeepsDoc(doc, op, at, sent);
    var d := t.docs[account];
    forall f | f in d.transfers ensures f.Id() in t.born {
      InLookup(d.transfers, f.Id());
      AllBornAfter(op, TransfersOf(doc), at, FetchedFor(doc, op), f.Id());
    }
    forall a | a in t.docs
      ensures DocOk(t.docs[a]) && CreatedBy(t.docs[a].transfers, t.clock) && AllBorn(t.docs[a], t.born)
    {
      if a != account { assert a in s.docs && t.docs[a] == s.docs[a]; }
    }
  }

  lemma CoreAfterCommit(s: Sys, t: Sys, account: string, op: Op, at: int, sent: int)
    requires Commits(s, t, account, op, at, sent) && Core(s)
    requires at <= sent <= s.clock && CreatedBy(TransfersOf(DocOf(s.docs, account)), at) && Timely(s.log, account, at)
    requires op.Create? ==> op.context.transferId in s.used
    requires CommitLive(t.log, |s.log|)
    ensures Core(t)
  {
    hide DocOk, Serial, ReleaseOk, LogOrdered, CreatedBy, OptDocOk, FreshFor, CommitLive, AnswerOk;
    DocsAfterCommit(s, t, account, op, at, sent);
    assert t.log[..|t.log| - 1] == s.log;
    OrderedAfter(s.log, Commit(account, op, at, sent, s.clock), s.clock);
    ReleasesAfter(s, t, Commit(account, op, at, sent, s.clock));
    AnswersAfter(s, t, Commit(account, op, at, sent, s.clock));
  }

  lemma ReleasesAfter(s: Sys, t: Sys, c: Commit)
    requires t.log == s.log + [c] && t.releases == s.releases
    requires forall r | r in s.releases :: ReleaseOk(s.log, r)
    ensures forall r | r in t.releases :: ReleaseOk(t.log, r)
  {
    forall r | r in t.releases ensures ReleaseOk(t.log, r) {
      assert ReleaseOk(s.log, r);
      PrefixKept(s.log, c, r.seen);
    }
  }

  /** What a commit acted on is settled by the log up to it. */
  lemma TargetKept(log: seq<Commit>, c: Commit, i: nat)
    requires i < |log|
    ensures (log + [c])[i] == log[i] && TargetAfter(log + [c], i) == TargetAfter(log, i)
  {
    PrefixKept(log, c, i + 1);
  }

  lemma AnswersAfter(s: Sys, t: Sys, c: Commit)
    requires t.log == s.log + [c] && t.answers == s.answers && CommitLive(t.log, |s.log|)
    requires forall i | 0 <= i < |s.log| :: CommitLive(s.log, i)
    requires forall a | a in s.answers :: AnswerOk(s.log, a)
    ensures forall i | 0 <= i < |t.log| :: CommitLive(t.log, i)
    ensures forall a | a in t.answers :: AnswerOk(t.log, a)
  {
    hide TargetAfter;
    forall i | 0 <= i < |t.log| ensures CommitLive(t.log, i) {
      if i < |s.log| {
        assert CommitLive(s.log, i);
        TargetKept(s.log, c, i);
      }
    }
    forall a | a in t.answers ensures AnswerOk(t.log, a) {
      assert AnswerOk(s.log, a);
      TargetKept(s.log, c, a.commit);
    }
  }

  lemma OrderedAfter(log: seq<Commit>, c: Commit, clock: int)
    requires LogOrdered(log, clock) && c.at <= c.sent <= c.landed <= clock && Timely(log, c.account, c.at)
    ensures LogOrdered(log + [c], clock)
  {
    var more := log + [c];
    forall i, j | 0 <= i < j < |more| && more[i].account == more[j].account
      ensures more[i].landed <= more[j].at
    {
      if j == |log| { assert log[i] in log; }
    }
  }

  /** The transfer a put or completion has just committed to: there, live when it was sent, expiring as located. */
  lemma CommittedTarget(s: Sys, w: nat)
    requires Inv(s) && w in s.workers && s.workers[w].AwaitingReplace? && WritesContent(s.workers[w].op)
    requires CasSucceeds(s.docs, s.workers[w].account, s.workers[w].before)
    ensures var k, t := s.workers[w], DoReplace(s, w);
      && k.guard.Some? && k.account in t.docs
      && var r := Lookup(t.docs[k.account].transfers, k.op.id);
        r.Some? && LiveError(r.value, k.sent).None? && r.value.expiresAt == k.guard.value.expiresAt
  {
    hide DocOk, ReleaseOk, LogOrdered, Replay, CommitLive, AnswerOk;
    var k := s.workers[w];
    assert WorkerOk(s, k);
    var doc := DocOf(s.docs, k.account);
    if doc.Some? { DocDistinct(doc.value); }
    hide Inv, WorkerOk;
    ActedOn(k.op, TransfersOf(doc), k.at, FetchedFor(doc, k.op), k.guard.value, k.sent);
  }

  /** A put or completion leaves its transfer in place, neither canceled nor expired. */
  lemma ActedOn(op: Op, fs: seq<StoredFile>, at: int, fetched: Option<WireObject>, guard: StoredFile, sent: int)
    requires ValidOp(op) && WritesContent(op) && DistinctIds(fs) && Change(op, Expire(fs, at), at, fetched).Ok?
    requires guard.Id() == op.id && SameTransfer(guard, Lookup(fs, op.id)) && LiveError(guard, sent).None?
    ensures var r := Lookup(Change(op, Expire(fs, at), at, fetched).value, op.id);
      r.Some? && LiveError(r.value, sent).None? && r.value.expiresAt == guard.expiresAt
  {
    hide Expire, Lookup, Change;
    LookupChange(op, fs, at, fetched, op.id);
    TargetFound(op, fs, at, fetched);
    var r := Lookup(fs, op.id).value;
    ActKeepsId(op, ExpireFile(r, at), at, fetched);
    ActLeavesLive(op, ExpireFile(r, at), at, fetched);
  }

  lemma CommitKeepsWorkers(s: Sys, w: nat)
    requires Inv(s) && w in s.workers && s.workers[w].AwaitingReplace?
    requires CasSucceeds(s.docs, s.workers[w].account, s.workers[w].before)
    ensures var t := DoReplace(s, w); CreatesDistinct(t.workers) && forall v | v in t.workers :: WorkerOk(t, t.workers[v])
  {
    hide DocOk, DocsOk, Replay, ReleaseOk, LogOrdered, CommitLive, AnswerOk, Commits, Replaced, WorkerOk;
    var k, t := s.workers[w], DoReplace(s, w);
    InvCommits(s, w);
    NewTarget(s, w);
    forall v | v in t.workers ensures WorkerOk(t, t.workers[v]) {
      if v != w { WorkerAfterCommit(s, t, k.account, k.op, k.at, k.sent, s.workers[v]); }
    }
  }

  lemma InvCommit(s: Sys, w: nat)
    requires Inv(s) && w in s.workers && s.workers[w].AwaitingReplace?
    requires CasSucceeds(s.docs, s.workers[w].account, s.workers[w].before)
    ensures Inv(DoReplace(s, w))
  {
    hide DocOk, Replay, ReleaseOk, LogOrdered, CommitLive, AnswerOk, CreatesDistinct, Commits, Replaced;
    var k, t := s.workers[w], DoReplace(s, w);
    assert WorkerOk(s, k);
    InvCommits(s, w);
    NewTarget(s, w);
    CoreAfterCommit(s, t, k.account, k.op, k.at, k.sent);
    CommitKeepsWorkers(s, w);
  }

  lemma ReplayAfter(s: Sys, t: Sys, account: string, op: Op, at: int, sent: int)
    requires Commits(s, t, account, op, at, sent) && Replay(s.log) == Some(s.docs)
    ensures Replay(t.log) == Some(t.docs)
  {
    hide Serial, OptDocOk, FreshFor;
    assert t.log[..|t.log| - 1] == s.log;
  }

  /** The newest commit is live, and its worker knows what it has committed to. */
  lemma NewTarget(s: Sys, w: nat)
    requires Inv(s) && w in s.workers && s.workers[w].AwaitingReplace?
    requires CasSucceeds(s.docs, s.workers[w].account, s.workers[w].before)
    ensures CommitLive(DoReplace(s, w).log, |s.log|)
    ensures WorkerOk(DoReplace(s, w), DoReplace(s, w).workers[w])
  {
    hide DocOk, ReleaseOk, LogOrdered, AnswerOk, Replay, Commits, Replaced, Lookup, CommitLive, TargetAfter, LandedOk, ComputedOk;
    hide LiveError;
    var k, t, i := s.workers[w], DoReplace(s, w), |s.log|;
    if WritesContent(k.op) {
      assert WorkerOk(s, k);
      CommittedTarget(s, w);
      InvCommits(s, w);
      ReplayAfter(s, t, k.account, k.op, k.at, k.sent);
      LastTarget(t, i);
      GuardWasLive(s, k);
      var r := Lookup(t.docs[k.account].transfers, k.op.id);
      assert t.log[i] == Commit(k.account, k.op, k.at, k.sent, s.clock);
      NewestLive(t.log, k, r);
    } else {
      NewestLive(t.log, k, None);
    }
  }

  lemma GuardWasLive(s: Sys, k: Worker)
    requires k.AwaitingReplace? && WorkerOk(s, k) && WritesContent(k.op) && k.guard.Some?
    ensures LiveError(k.guard.value, k.sent).None?
  {
  }

  lemma NewestLive(log: seq<Commit>, k: Worker, r: Option<StoredFile>)
    requires log != [] && k.AwaitingReplace?
    requires var c := log[|log| - 1]; c.account == k.account && c.op == k.op && c.sent == k.sent
    requires WritesContent(k.op) ==>
      && TargetAfter(log, |log| - 1) == r && r.Some? && LiveError(r.value, k.sent).None?
      && k.guard.Some? && r.value.expiresAt == k.guard.value.expiresAt && LiveError(k.guard.value, k.sent).None?
    ensures CommitLive(log, |log| - 1) && LandedOk(log, k.account, k.op, k.guard, |log| - 1)
  {
    hide TargetAfter, LiveError;
  }

  lemma LastTarget(t: Sys, i: nat)
    requires i + 1 == |t.log|
    ensures Replay(t.log) == Some(t.docs) && OnTransfer(t.log[i].op) && t.log[i].account in t.docs ==>
      TargetAfter(t.log, i) == Lookup(t.docs[t.log[i].account].transfers, t.log[i].op.id)
  {
    hide Replay, Lookup;
    assert t.log[..i + 1] == t.log;
  }

  lemma InvGuard(s: Sys, w: nat)
    requires Inv(s) && w in s.workers && s.workers[w].AwaitingTrust?
    ensures Inv(DoGuard(s, w))
  {
    hide DocOk, Replay, ReleaseOk, LogOrdered, CommitLive, AnswerOk;
    var k, t := s.workers[w], DoGuard(s, w);
    assert WorkerOk(s, k);
    if w in t.workers { InvWithWorker(s, t, w, t.workers[w]); } else { InvDrop(s, w); }
  }

  lemma InvReplace(s: Sys, w: nat)
    requires Inv(s) && w in s.workers && s.workers[w].AwaitingReplace?
    ensures Inv(DoReplace(s, w))
  {
    hide DocOk, Replay, ReleaseOk, LogOrdered, CommitLive, AnswerOk;
    var k, t := s.workers[w], DoReplace(s, w);
    assert WorkerOk(s, k);
    if CasSucceeds(s.docs, k.account, k.before) {
      InvCommit(s, w);
    } else if k.tries + 1 < MAX_TRIES {
      InvWithWorker(s, t, w, t.workers[w]);
    } else {
      InvDrop(s, w);
    }
  }

  lemma InvSettle(s: Sys, w: nat)
    requires Inv(s) && w in s.workers && s.workers[w].Landed?
    ensures Inv(DoSettle(s, w))
  {
    hide DocOk, Replay, ReleaseOk, CommitLive, TargetAfter, AnswerOk;
    var k := s.workers[w];
    assert WorkerOk(s, k);
    assert LandedOk(s.log, k.account, k.op, k.guard, k.commit);
    assert s.log[k.commit].landed <= s.clock;
    InvDrop(s, w);
    SettledOk(s.log, k, s.clock);
    InvAnswers(Drop(s, w), Answered(k.commit, s.clock, ExpiryError(k.op, k.guard, s.clock)));
  }

  lemma InvAnswers(s: Sys, a: Answered)
    requires Inv(s) && AnswerOk(s.log, a)
    ensures Inv(s.(answers := s.answers + [a]))
  {
    hide DocOk, Replay, ReleaseOk, CommitLive, LogOrdered, AnswerOk, WorkerOk;
    var t := s.(answers := s.answers + [a]);
    forall v | v in t.workers ensures WorkerOk(t, t.workers[v]) {
      assert WorkerOk(s, s.workers[v]);
      WorkerOkAnswers(s, t, s.workers[v]);
    }
  }

  lemma WorkerOkAnswers(s: Sys, t: Sys, k: Worker)
    requires WorkerOk(s, k) && t == s.(answers := t.answers)
    ensures WorkerOk(t, k)
  {
  }

  lemma SettledOk(log: seq<Commit>, k: Worker, now: int)
    requires k.Landed? && LandedOk(log, k.account, k.op, k.guard, k.commit) && log[k.commit].sent <= log[k.commit].landed <= now
    ensures AnswerOk(log, Answered(k.commit, now, ExpiryError(k.op, k.guard, now)))
  {
    hide TargetAfter;
  }

  // ---------- all runs ----------

  lemma InvWriteStep(s: Sys, e: Event)
    requires Inv(s) && (e.Compute? || e.FetchObject? || e.Guard? || e.Replace? || e.Settle?) && Next(s, e).Some?
    ensures Inv(Next(s, e).value)
  {
    if e.Compute? { InvCompute(s, e.w); }
    else if e.FetchObject? { InvFetchObject(s, e.w); }
    else if e.Guard? { InvGuard(s, e.w); }
    else if e.Settle? { InvSettle(s, e.w); }
    else { InvReplace(s, e.w); }
  }

  lemma InvReadStep(s: Sys, e: Event)
    requires Inv(s) && (e.BeginRead? || e.ReadObject? || e.ReadFence? || e.Answer?) && Next(s, e).Some?
    ensures Inv(Next(s, e).value)
  {
    if e.BeginRead? { InvBeginRead(s, e.w, e.account, e.auth, e.id, e.request); }
    else if e.ReadObject? { InvReadObject(s, e.w); }
    else if e.ReadFence? { InvReadFence(s, e.w); }
    else { InvAnswer(s, e.w); }
  }

  lemma InvOtherStep(s: Sys, e: Event)
    requires Inv(s) && (e.Tick? || e.Abort?) && Next(s, e).Some?
    ensures Inv(Next(s, e).value)
  {
    if e.Tick? {
      InvTick(s, e.elapsed);
      assert e == Tick(e.elapsed);
    } else {
      InvDrop(s, e.w);
    }
  }

  lemma InvNext(s: Sys, e: Event)
    requires Inv(s) && Next(s, e).Some?
    ensures Inv(Next(s, e).value)
  {
    hide Inv, Next;
    if e.Tick? || e.Abort? { InvOtherStep(s, e); }
    else if e.BeginCreate? || e.BeginWrite? || e.BeginCleanup? { InvBegin(s, e); }
    else if e.Compute? || e.FetchObject? || e.Guard? || e.Replace? || e.Settle? { InvWriteStep(s, e); }
    else { InvReadStep(s, e); }
  }

  lemma {:induction false} InvRun(clock: int, events: seq<Event>)
    requires Run(clock, events).Some?
    ensures Inv(Run(clock, events).value)
  {
    if events != [] {
      InvRun(clock, events[..|events| - 1]);
      InvNext(Run(clock, events[..|events| - 1]).value, events[|events| - 1]);
    }
  }

  /**
   * For any interleaving, the collection is what running the committed operations one at a time, in commit
   * order, would have produced; none of them fails alone; and their own clocks agree with that order.
   */
  lemma RunsAreSerializable(clock: int, events: seq<Event>)
    requires Run(clock, events).Some?
    ensures var s := Run(clock, events).value;
      Replay(s.log) == Some(s.docs) && LogOrdered(s.log, s.clock)
  {
    InvRun(clock, events);
  }

  /**
   * In every reachable state each account is within its four quotas, each record is well formed, and the
   * stored ciphertext is exactly what the ledger records: none for canceled, expired or dropped transfers.
   */
  lemma LedgersAreSound(clock: int, events: seq<Event>, account: string, id: string)
    requires Run(clock, events).Some? && account in Run(clock, events).value.docs
    ensures var d := Run(clock, events).value.docs[account];
      && LedgerOk(d.transfers)
      && SlotAgrees(Lookup(d.transfers, id), d.objects, id)
  {
    hide FileOk, WithinQuota;
    InvRun(clock, events);
    assert DocOk(Run(clock, events).value.docs[account]);
  }

  /** In every reachable state every answered read reported what its second ledger read saw, unexpired. */
  lemma AnswersAreFenced(clock: int, events: seq<Event>, r: Release)
    requires Run(clock, events).Some? && r in Run(clock, events).value.releases
    ensures ReleaseOk(Run(clock, events).value.log, r)
  {
    InvRun(clock, events);
  }

  /**
   * Every put or completion in effect left a transfer that was not canceled and had not expired when the update was
   * sent, the last moment at which the service checks before the database decides.
   */
  lemma WritesWereLiveWhenSent(clock: int, events: seq<Event>, i: nat)
    requires Run(clock, events).Some? && i < |Run(clock, events).value.log|
    requires WritesContent(Run(clock, events).value.log[i].op)
    ensures var log := Run(clock, events).value.log;
      && TargetAfter(log, i).Some? && log[i].sent <= log[i].landed
      && TargetAfter(log, i).value.state != Canceled && TargetAfter(log, i).value.state != Expired
      && log[i].sent < TargetAfter(log, i).value.expiresAt
  {
    hide Next, TargetAfter, Replay, DocsOk, WorkerOk, ReleaseOk, AnswerOk;
    InvRun(clock, events);
    assert CommitLive(Run(clock, events).value.log, i);
  }

  /** A put or completion answers without error exactly when it landed and was answered before its transfer expired. */
  lemma AnsweredWritesLandedInTime(clock: int, events: seq<Event>, a: Answered)
    requires Run(clock, events).Some? && a in Run(clock, events).value.answers
    requires a.commit < |Run(clock, events).value.log| && WritesContent(Run(clock, events).value.log[a.commit].op)
    ensures var log := Run(clock, events).value.log;
      && TargetAfter(log, a.commit).Some? && log[a.commit].landed <= a.at
      && (a.error.None? <==> a.at < TargetAfter(log, a.commit).value.expiresAt)
      && (a.error.None? ==> log[a.commit].landed < TargetAfter(log, a.commit).value.expiresAt)
      && (a.error.Some? ==> a.error == Some(ExpiredError))
  {
    hide Next, TargetAfter, Replay, DocsOk, WorkerOk, ReleaseOk, CommitLive;
    InvRun(clock, events);
    assert AnswerOk(Run(clock, events).value.log, a);
  }

  lemma RunMore(clock: int, events: seq<Event>, e: Event)
    requires Run(clock, events).Some?
    ensures Run(clock, events + [e]) == Next(Run(clock, events).value, e)
  {
    hide Next;
    assert (events + [e])[..|events|] == events;
  }

  /** The three steps of a write that has been sent, when time passes before it lands. */
  lemma LateSteps(s: Sys, w: nat) returns (elapsed: nat)
    requires Inv(s) && CanLand(s, w)
    ensures var waited := s.(clock := s.clock + elapsed);
      var landed := DoReplace(waited, w);
      && Next(s, Tick(elapsed)) == Some(waited) && Next(waited, Replace(w)) == Some(landed)
      && Next(landed, Settle(w)) == Some(DoSettle(landed, w)) && LandedLate(s, DoSettle(landed, w), w)
  {
    hide DocOk, DocsOk, ReleaseOk, LogOrdered, Replay, CommitLive, AnswerOk, TargetAfter, Replaced, ComputedOk, CreatesDistinct;
    var k := s.workers[w];
    assert WorkerOk(s, k) && k.guard.Some? by { WriteHasGuard(s, k); }
    elapsed := if k.guard.value.expiresAt <= s.clock then 0 else k.guard.value.expiresAt - s.clock;
    InvTick(s, elapsed);
    var waited := s.(clock := s.clock + elapsed);
    assert Next(s, Tick(elapsed)) == Some(waited);
    NewTarget(waited, w);
    hide Inv;
    assert WorkerOk(DoReplace(waited, w), Landed(k.account, k.op, k.guard, |s.log|));
  }

  lemma WriteHasGuard(s: Sys, k: Worker)
    requires k.AwaitingReplace? && WorkerOk(s, k) && WritesContent(k.op)
    ensures k.guard.Some?
  {
  }

  /** A put or completion has been sent, and nobody has written its account since it was computed. */
  predicate CanLand(s: Sys, w: nat)
  {
    && w in s.workers && s.workers[w].AwaitingReplace? && WritesContent(s.workers[w].op)
    && CasSucceeds(s.docs, s.workers[w].account, s.workers[w].before)
  }

  /** The write of worker `w` landed next, though its transfer had expired by then, and its caller was told so. */
  predicate LandedLate(s: Sys, t: Sys, w: nat)
    requires w in s.workers && s.workers[w].AwaitingReplace?
  {
    var i := |s.log|;
    && |t.log| == i + 1 && t.log[..i] == s.log && t.log[i].account == s.workers[w].account && t.log[i].op == s.workers[w].op
    && TargetAfter(t.log, i).Some? && TargetAfter(t.log, i).value.expiresAt <= t.log[i].landed
    && t.answers == s.answers + [Answered(i, t.clock, Some(ExpiredError))]
  }

  /**
   * The checks before the update cannot promise more: from every reachable state, a put or completion that has been sent
   * and would still win can land after its transfer has expired, and then its caller is told so.
   */
  lemma SentWritesCanLandLate(clock: int, events: seq<Event>, w: nat) returns (more: seq<Event>)
    requires Run(clock, events).Some? && CanLand(Run(clock, events).value, w)
    ensures Run(clock, events + more).Some?
    ensures LandedLate(Run(clock, events).value, Run(clock, events + more).value, w)
  {
    hide Next, CanLand, LandedLate, Inv, DoReplace, DoSettle;
    InvRun(clock, events);
    var elapsed := LateSteps(Run(clock, events).value, w);
    more := [Tick(elapsed), Replace(w), Settle(w)];
    RunMore(clock, events, more[0]);
    RunMore(clock, events + [more[0]], more[1]);
    RunMore(clock, events + [more[0]] + [more[1]], more[2]);
    assert events + more == events + [more[0]] + [more[1]] + [more[2]];
  }

  lemma ActLeavesLive(op: Op, f: StoredFile, now: int, fetched: Option<WireObject>)
    requires (op.Put? || op.Complete?) && Act(op, f, now, fetched).Ok?
    ensures Act(op, f, now, fetched).value.state != Expired && Act(op, f, now, fetched).value.state != Canceled
  {
  }

  // ---------- finished transfers along runs ----------

  /** Since some earlier moment, `f` with its ciphertext `held` is unchanged, dead, or gone. */
  predicate FrozenSince(s: Sys, account: string, f: StoredFile, held: map<nat, WireObject>)
  {
    && account in s.docs && f.Id() in s.born
    && SameOrGone(f, Lookup(s.docs[account].transfers, f.Id()))
    && (Lookup(s.docs[account].transfers, f.Id()) == Some(f) ==> Held(s.docs[account].objects, f.Id()) == held)
  }

  lemma FrozenNext(s: Sys, e: Event, account: string, f: StoredFile, held: map<nat, WireObject>)
    requires Inv(s) && Next(s, e).Some? && f.state == Available && FrozenSince(s, account, f, held)
    ensures FrozenSince(Next(s, e).value, account, f, held)
  {
    hide Inv, FrozenSince;
    if e.Replace? && DoReplace(s, e.w).docs != s.docs {
      var k := s.workers[e.w];
      InvCommits(s, e.w);
      FrozenCommit(s, DoReplace(s, e.w), k.account, k.op, k.at, k.sent, account, f, held);
    } else {
      OthersCommitNothing(s, e);
      FrozenQuiet(s, Next(s, e).value, account, f, held);
    }
  }

  lemma OthersCommitNothing(s: Sys, e: Event)
    requires Next(s, e).Some? && (e.Replace? ==> DoReplace(s, e.w).docs == s.docs)
    ensures Next(s, e).value.docs == s.docs && s.born <= Next(s, e).value.born
  {
    hide Expire, Lookup, Change, Replaced;
  }

  lemma FrozenQuiet(s: Sys, t: Sys, account: string, f: StoredFile, held: map<nat, WireObject>)
    requires FrozenSince(s, account, f, held) && t.docs == s.docs && s.born <= t.born
    ensures FrozenSince(t, account, f, held)
  {
  }

  lemma InvCommits(s: Sys, w: nat)
    requires Inv(s) && w in s.workers && s.workers[w].AwaitingReplace?
    requires CasSucceeds(s.docs, s.workers[w].account, s.workers[w].before)
    ensures Commits(s, DoReplace(s, w), s.workers[w].account, s.workers[w].op, s.workers[w].at, s.workers[w].sent)
    ensures s.workers[w].op.Create? ==> s.workers[w].op.context.transferId !in s.born
  {
    hide DocOk, ReleaseOk, LogOrdered, Replay;
    var k := s.workers[w];
    assert WorkerOk(s, k);
    if k.account in s.docs { assert AllBorn(s.docs[k.account], s.born); }
  }

  lemma FrozenCommit(s: Sys, t: Sys, committed: string, op: Op, at: int, sent: int, account: string, f: StoredFile, held: map<nat, WireObject>)
    requires Commits(s, t, committed, op, at, sent) && (op.Create? ==> op.context.transferId !in s.born)
    requires f.state == Available && FrozenSince(s, account, f, held)
    ensures FrozenSince(t, account, f, held)
  {
    if account == committed {
      var d := s.docs[account];
      var fetched := FetchedFor(Some(d), op);
      DocDistinct(d);
      SameOrGoneAfter(op, d.transfers, at, fetched, f);
      if Lookup(t.docs[account].transfers, f.Id()) == Some(f) {
        LookupChange(op, d.transfers, at, fetched, f.Id());
        CameFromItself(Lookup(d.transfers, f.Id()), f.Id(), op, at, fetched, f);
        AvailableIsFrozen(d, op, at, sent, f);
      }
    }
  }

  lemma RunPrefix(clock: int, events: seq<Event>, n: nat)
    requires n <= |events| && Run(clock, events).Some?
    ensures Run(clock, events[..n]).Some?
    decreases |events| - n
  {
    if n < |events| {
      RunPrefix(clock, events, n + 1);
      assert events[..n + 1][..n] == events[..n];
    } else {
      assert events[..n] == events;
    }
  }

  /** Once available, a transfer's record and ciphertext never change again, however the run goes on. */
  lemma {:induction false} AvailableStays(clock: int, events: seq<Event>, n: nat, m: nat, account: string, id: string)
    requires n <= m <= |events| && Run(clock, events).Some?
    ensures Run(clock, events[..n]).Some? && Run(clock, events[..m]).Some?
    ensures var s, t := Run(clock, events[..n]).value, Run(clock, events[..m]).value;
      account in s.docs && Lookup(s.docs[account].transfers, id).Some? && Lookup(s.docs[account].transfers, id).value.state == Available ==>
        FrozenSince(t, account, Lookup(s.docs[account].transfers, id).value, Held(s.docs[account].objects, id))
    decreases m - n
  {
    hide Next, Inv, FrozenSince;
    RunPrefix(clock, events, n);
    RunPrefix(clock, events, m);
    var s, t := Run(clock, events[..n]).value, Run(clock, events[..m]).value;
    if account in s.docs && Lookup(s.docs[account].transfers, id).Some? && Lookup(s.docs[account].transfers, id).value.state == Available {
      var f, held := Lookup(s.docs[account].transfers, id).value, Held(s.docs[account].objects, id);
      if m == n {
        InvRun(clock, events[..n]);
        FrozenNow(s, account, id);
      } else {
        AvailableStays(clock, events, n, m - 1, account, id);
        InvRun(clock, events[..m - 1]);
        assert events[..m][..m - 1] == events[..m - 1];
        FrozenNext(Run(clock, events[..m - 1]).value, events[m - 1], account, f, held);
      }
    }
  }

  lemma FrozenNow(s: Sys, account: string, id: string)
    requires Inv(s) && account in s.docs && Lookup(s.docs[account].transfers, id).Some?
    ensures FrozenSince(s, account, Lookup(s.docs[account].transfers, id).value, Held(s.docs[account].objects, id))
  {
    BornWhenFound(s, account, id);
  }
}

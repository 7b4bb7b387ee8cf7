/**
 * The ledger code in its own form (backend/attachments/fileLedger.ts): a cloned draft changed in place,
 * the conditional document write, and the retry loop under interference from other workers.
 */
module FileLedgerService {
  import opened Common
  import opened FileLedger
  import opened FileLedgerSystem

  /** The clone of a ledger that one attempt works on. */
  class LedgerDraft {
    var revision: nat
    var transfers: seq<StoredFile>

    constructor (before: Option<Snapshot>)
      ensures transfers == SnapshotTransfers(before)
      ensures revision == if before.None? then 0 else before.value.revision
    {
      match before {
        case None =>
          revision := 0;
          transfers := [];
        case Some(b) =>
          revision := b.revision;
          transfers := b.transfers;
      }
    }

    /** Expires due records where they stand, then filters out those past their grace day. */
    method Expire(now: int)
      modifies this`transfers
      ensures transfers == FileLedger.Expire(old(transfers), now)
    {
      ghost var was := transfers;
      var i := 0;
      while i < |transfers|
        invariant i <= |transfers| == |was|
        invariant forall k | 0 <= k < i :: transfers[k] == ExpireFile(was[k], now)
        invariant transfers[i..] == was[i..]
      {
        assert transfers[i] == was[i];
        if transfers[i].expiresAt <= now {
          transfers := transfers[i := transfers[i].(state := Expired, reserved := 0, chunks := map[], manifest := None)];
        }
        i := i + 1;
      }
      var kept: seq<StoredFile> := [];
      var j := 0;
      while j < |transfers|
        invariant j <= |transfers| == |was|
        invariant forall k | 0 <= k < |was| :: transfers[k] == ExpireFile(was[k], now)
        invariant kept == FileLedger.Expire(was[..j], now)
      {
        assert was[..j + 1][..j] == was[..j];
        if transfers[j].expiresAt + TRANSFER_EXPIRY > now { kept := kept + [transfers[j]]; }
        j := j + 1;
      }
      assert was[..j] == was;
      transfers := kept;
    }

    /** The sums and counts `create` reduces the ledger to. */
    method Measure(m: FileLedger.Measure) returns (total: nat)
      ensures total == Total(m, transfers)
    {
      total := 0;
      for i := 0 to |transfers|
        invariant total == Total(m, transfers[..i])
      {
        assert transfers[..i + 1][..i] == transfers[..i];
        total := total + Weight(m, transfers[i]);
      }
      assert transfers[..|transfers|] == transfers;
    }

    method Create(c: PC.Context, now: int) returns (r: Result<FileStatus, FileError>)
      requires Geometry(c)
      modifies this`transfers
      ensures Effect(Op.Create(c), old(transfers), now, None, transfers, r)
    {
      var reserved := ReservationBytes(c.fileSize, c.chunkCount);
      var stored := Measure(StoredBytes);
      var active := Measure(ActiveCount);
      var incomplete := Measure(IncompleteBytes);
      if |transfers| >= MAX_RECORDS || active >= MAX_ACTIVE_TRANSFERS ||
         stored + reserved > MAX_STORED_BYTES_PER_USER || incomplete + reserved > MAX_INCOMPLETE_BYTES_PER_USER {
        return Err(QuotaError);
      }
      var f := NewFile(c, now);
      transfers := transfers + [f];
      return Ok(View(f));
    }

    method Find(id: string) returns (r: Option<nat>)
      ensures r == FindIndex(transfers, id)
    {
      var i := 0;
      while i < |transfers|
        invariant 0 <= i <= |transfers|
        invariant FindIndex(transfers, id) ==
          match FindIndex(transfers[i..], id) case None => None case Some(k) => Some(k + i)
      {
        if transfers[i].Id() == id { return Some(i); }
        assert transfers[i..][1..] == transfers[i + 1..];
        i := i + 1;
      }
      return None;
    }

    /** Finds the transfer, checks that the caller owns it, and changes its fields in place. */
    method OnOwned(op: Op, now: int, fetched: Option<WireObject>) returns (r: Result<FileStatus, FileError>)
      requires OnTransfer(op)
      modifies this`transfers
      ensures Effect(op, old(transfers), now, fetched, transfers, r)
    {
      var at := Find(op.id);
      if at.None? { return Err(AuthorizationError); }
      var i := at.value;
      var f := transfers[i];
      if !Authorized(op.auth, f, true) { return Err(AuthorizationError); }
      match op {
        case Put(_, _, slot, payload) => r := Put(i, slot, payload, now, fetched);
        case Complete(_, _) => r := Complete(i, now);
        case Cancel(_, _) =>
          if f.state != Expired { transfers := transfers[i := transfers[i].(state := Canceled)]; }
          transfers := transfers[i := transfers[i].(reserved := 0, chunks := map[], manifest := None)];
          r := Ok(View(transfers[i]));
      }
    }

    method Put(i: nat, slot: Slot, payload: WireObject, now: int, fetched: Option<WireObject>) returns (r: Result<FileStatus, FileError>)
      requires i < |transfers|
      modifies this`transfers
      ensures match PutFile(old(transfers)[i], slot, payload, now, fetched)
        case Err(e) => r == Err(e) && transfers == old(transfers)
        case Ok(g) => r == Ok(View(g)) && transfers == old(transfers)[i := g]
    {
      var f := transfers[i];
      var dead := LiveError(f, now);
      if dead.Some? { return Err(dead.value); }
      if slot.ChunkSlot? && (slot.index < 0 || slot.index >= f.context.chunkCount) { return Err(LimitsError); }
      var max := if slot.ManifestSlot? then MAX_METADATA_SIZE else SealedChunkSize(f.context, slot.index);
      if !Sealed(payload, max) { return Err(LimitsError); }
      if slot.ChunkSlot? && |payload.ciphertext| != max { return Err(LimitsError); }
      var existing := if slot.ManifestSlot? then f.manifest else if slot.index in f.chunks then fetched else None;
      if existing.Some? {
        if existing.value != payload { return Err(ConflictError); }
        return Ok(View(f));
      }
      if f.state != Incomplete || NonceUsed(f, payload.nonce) { return Err(ConflictError); }
      if slot.ManifestSlot? {
        transfers := transfers[i := f.(manifest := Some(payload))];
      } else {
        transfers := transfers[i := f.(chunks := f.chunks[slot.index := ChunkRecord(payload.nonce, |payload.ciphertext|)])];
      }
      return Ok(View(transfers[i]));
    }

    method Complete(i: nat, now: int) returns (r: Result<FileStatus, FileError>)
      requires i < |transfers|
      modifies this`transfers
      ensures match CompleteFile(old(transfers)[i], now)
        case Err(e) => r == Err(e) && transfers == old(transfers)
        case Ok(g) => r == Ok(View(g)) && transfers == old(transfers)[i := g]
    {
      var f := transfers[i];
      var dead := LiveError(f, now);
      if dead.Some? { return Err(dead.value); }
      var all := |f.chunks| == f.context.chunkCount;
      var k: nat := 0;
      while all && k < f.context.chunkCount
        invariant all ==> |f.chunks| == f.context.chunkCount && forall j: nat | j < k :: j in f.chunks
        invariant !all ==> !HasEveryChunk(f)
      {
        all := k in f.chunks;
        k := k + 1;
      }
      if f.manifest.None? || !all { return Err(IncompleteError); }
      transfers := transfers[i := f.(state := Available)];
      return Ok(View(transfers[i]));
    }

    /** The `change` callback for any operation. */
    method Apply(op: Op, now: int, fetched: Option<WireObject>) returns (r: Result<Option<FileStatus>, FileError>)
      requires ValidOp(op)
      modifies this`transfers
      ensures match Change(op, old(transfers), now, fetched)
        case Err(e) => r == Err(e) && transfers == old(transfers)
        case Ok(after) => r.Ok? && transfers == after
    {
      match op {
        case Cleanup => r := Ok(None);
        case Create(c) =>
          var status := Create(c, now);
          r := match status case Err(e) => Err(e) case Ok(v) => Ok(Some(v));
        case _ =>
          var status := OnOwned(op, now, fetched);
          r := match status case Err(e) => Err(e) case Ok(v) => Ok(Some(v));
      }
    }
  }

  /** A callback's whole effect: the new records and the status it returns, or an error and no change. */
  predicate Effect(op: Op, was: seq<StoredFile>, now: int, fetched: Option<WireObject>, became: seq<StoredFile>, r: Result<FileStatus, FileError>)
    requires ValidOp(op)
  {
    match Change(op, was, now, fetched)
    case Err(e) => r == Err(e) && became == was
    case Ok(after) =>
      && became == after && r.Ok?
      && match op
         case Cleanup => true
         case Create(_) => r.value == View(after[|after| - 1])
         case _ => FindIndex(was, op.id).Some? && r.value == View(after[FindIndex(was, op.id).value])
  }

  // ---------- the collection ----------

  /** Commits by other workers, each applied where it succeeds alone and skipped where it does not. */
  function Applied(docs: map<string, Doc>, others: seq<Commit>): (r: map<string, Doc>)
  {
    if others == [] then docs
    else
      var before := Applied(docs, others[..|others| - 1]);
      var c := others[|others| - 1];
      if !ValidOp(c.op) then before
      else match Serial(DocOf(before, c.account), c.op, c.at, c.sent)
        case Err(_) => before
        case Ok(d) => before[c.account := d]
  }

  /** Revisions only grow, so an unchanged revision means an unchanged document. */
  lemma {:induction false} AppliedGrows(docs: map<string, Doc>, others: seq<Commit>, account: string)
    ensures var r := Applied(docs, others);
      account in docs ==> account in r && (r[account] == docs[account] || r[account].revision > docs[account].revision)
  {
    hide Change, Ended, StoreObject, LedgerPurgeAt;
    if others != [] { AppliedGrows(docs, others[..|others| - 1], account); }
  }

  lemma {:induction false} AppliedAppend(docs: map<string, Doc>, a: seq<Commit>, b: seq<Commit>)
    ensures Applied(Applied(docs, a), b) == Applied(docs, a + b)
  {
    hide Serial, ValidOp;
    if b == [] {
      assert a + b == a;
    } else {
      AppliedAppend(docs, a, b[..|b| - 1]);
      assert (a + b)[..|a + b| - 1] == a + b[..|b| - 1];
    }
  }

  class LedgerCollection {
    var docs: map<string, Doc>

    constructor ()
      ensures docs == map[]
    {
      docs := map[];
    }

    /** What other workers commit while this one waits. */
    method Interfere(others: seq<Commit>)
      modifies this
      ensures docs == Applied(old(docs), others)
    {
      ghost var was := docs;
      for i := 0 to |others|
        invariant docs == Applied(was, others[..i])
      {
        assert others[..i + 1][..i] == others[..i];
        var c := others[i];
        if ValidOp(c.op) {
          var d := Serial(DocOf(docs, c.account), c.op, c.at, c.sent);
          if d.Ok? { docs := docs[c.account := d.value]; }
        }
      }
      assert others[..|others|] == others;
    }

    /** The account whose ledger holds a transfer. */
    method Locate(id: string) returns (account: Option<string>)
      ensures account.Some? ==> account.value in docs && Lookup(docs[account.value].transfers, id).Some?
      ensures account.None? ==> forall a | a in docs :: Lookup(docs[a].transfers, id).None?
    {
      var rest := docs.Keys;
      while rest != {}
        invariant rest <= docs.Keys
        invariant forall a | a in docs && a !in rest :: Lookup(docs[a].transfers, id).None?
      {
        var a :| a in rest;
        if Lookup(docs[a].transfers, id).Some? { return Some(a); }
        rest := rest - {a};
      }
      return None;
    }

    /** The ids whose reservation ends with a write, collected record by record. */
    method CollectEnded(before: seq<StoredFile>, after: seq<StoredFile>) returns (unset: set<string>)
      ensures unset == Ended(before, after)
    {
      unset := {};
      for i := 0 to |before|
        invariant unset == Ended(before[..i], after)
      {
        assert before[..i + 1] == before[..i] + [before[i]];
        if before[i].reserved > 0 && !Reserves(after, before[i].Id()) { unset := unset + {before[i].Id()}; }
      }
      assert before[..|before|] == before;
    }

    /** The single-document compare-and-swap: quota, states, ciphertext and cleanup commit together or not at all. */
    method Replace(account: string, before: Option<Snapshot>, after: seq<StoredFile>, op: Op, now: int) returns (ok: bool)
      requires CasSucceeds(docs, account, before) ==> SnapshotTransfers(before) == TransfersOf(DocOf(docs, account))
      modifies this
      ensures ok <==> CasSucceeds(old(docs), account, before)
      ensures docs == if ok then old(docs)[account := Replaced(DocOf(old(docs), account), after, op, now)] else old(docs)
    {
      match before {
        case None =>
          if account in docs { return false; }
          docs := docs[account := Doc(1, after, map[], LedgerPurgeAt(after, now))];
          return true;
        case Some(b) =>
          var unset := CollectEnded(b.transfers, after);
          if account !in docs || docs[account].revision != b.revision { return false; }
          var d := docs[account];
          docs := docs[account := Doc(b.revision + 1, after, StoreObject(d.objects - unset, op), LedgerPurgeAt(after, now))];
          return true;
      }
    }
  }

  /**
   * What happens around one attempt: clock readings, the answer of the trust check before the commit, and others' commits
   * before and after the ciphertext read and between that check and the moment the update lands.
   */
  datatype Moment = Moment(at: int, beforeFetch: seq<Commit>, afterFetch: seq<Commit>, trusted: bool, sent: int, inFlight: seq<Commit>)
  {
    function Others(): (others: seq<Commit>) { beforeFetch + afterFetch + inFlight }
  }

  /** Everything others commit during the first `n` attempts. */
  function Meanwhile(moments: seq<Moment>, n: nat): (others: seq<Commit>)
    requires n <= |moments|
  {
    if n == 0 then [] else Meanwhile(moments, n - 1) + moments[n - 1].Others()
  }

  lemma MeanwhileStep(moments: seq<Moment>, n: nat)
    requires n < |moments|
    ensures Meanwhile(moments, n + 1) == Meanwhile(moments, n) + moments[n].Others()
  {
  }

  lemma NothingYet(docs: map<string, Doc>, moments: seq<Moment>)
    ensures Applied(docs, []) == docs && Meanwhile(moments, 0) == []
  {
  }

  /** What the hook before the commit throws: cleanup has none, and a put or completion checks its transfer once more. */
  function HookError(op: Op, guard: Option<StoredFile>, trusted: bool, now: int): (e: Option<FileError>)
  {
    if op.Cleanup? then None else if !trusted then Some(AuthorizationError) else ExpiryError(op, guard, now)
  }

  /** The operation passed its last checks and ran once, alone, on `docs`, and nothing else changed. */
  predicate TookEffect(docs: map<string, Doc>, became: map<string, Doc>, account: string, op: Op, guard: Option<StoredFile>, m: Moment)
    requires ValidOp(op)
  {
    && HookError(op, guard, m.trusted, m.sent).None?
    && Serial(DocOf(docs, account), op, m.at, m.sent).Ok?
    && became == docs[account := Serial(DocOf(docs, account), op, m.at, m.sent).value]
  }

  class FileLedgerService {
    const collection: LedgerCollection

    constructor (c: LedgerCollection)
      ensures collection == c
    {
      collection := c;
    }

    /**
     * The retry loop. Whatever other workers commit between its steps, success at attempt `k` means that the
     * operation passed the checks before its commit and took effect exactly once, as if run alone after everything
     * committed by then; failure means that it never took effect (`rest` is what others committed during the failing
     * attempt), and "storage" only after twelve lost races.
     */
    method Atomic(account: string, op: Op, guard: Option<StoredFile>, moments: seq<Moment>)
      returns (r: Result<nat, FileError>, ghost tries: nat, ghost rest: seq<Commit>)
      requires ValidOp(op) && |moments| == MAX_TRIES
      modifies collection
      ensures tries <= MAX_TRIES
      ensures r.Ok? ==>
        && r.value < MAX_TRIES && tries == r.value + 1
        && TookEffect(Applied(old(collection.docs), Meanwhile(moments, tries)), collection.docs, account, op, guard, moments[r.value])
      ensures r.Err? ==> collection.docs == Applied(old(collection.docs), Meanwhile(moments, tries) + rest)
      ensures r == Err(StorageError) ==> tries == MAX_TRIES
    {
      hide Serial, Applied, TookEffect, ValidOp, Meanwhile;
      ghost var was := collection.docs;
      NothingYet(was, moments);
      tries, rest := 0, [];
      var n := 0;
      while n < MAX_TRIES
        invariant 0 <= n <= MAX_TRIES && tries == n && rest == []
        invariant collection.docs == Applied(was, Meanwhile(moments, n))
      {
        var outcome, others := AttemptAt(account, op, guard, moments, n, was);
        if outcome.Failed? { return Err(outcome.error), n, others; }
        if outcome.Won? { return Ok(n), n + 1, []; }
        n := n + 1;
        tries := n;
      }
      assert Meanwhile(moments, tries) + [] == Meanwhile(moments, tries);
      return Err(StorageError), tries, [];
    }

    /** Pass `n` of the loop, in terms of everything committed since the loop began on `was`. */
    method AttemptAt(account: string, op: Op, guard: Option<StoredFile>, moments: seq<Moment>, n: nat, ghost was: map<string, Doc>)
      returns (outcome: Outcome, ghost others: seq<Commit>)
      requires ValidOp(op) && n < |moments| && collection.docs == Applied(was, Meanwhile(moments, n))
      modifies collection
      ensures match outcome
        case Won => TookEffect(Applied(was, Meanwhile(moments, n + 1)), collection.docs, account, op, guard, moments[n])
        case Lost => collection.docs == Applied(was, Meanwhile(moments, n + 1))
        case Failed(e) => collection.docs == Applied(was, Meanwhile(moments, n) + others) && e != StorageError
    {
      hide Serial, Applied, TookEffect, ValidOp, Meanwhile;
      MeanwhileStep(moments, n);
      AppliedAppend(was, Meanwhile(moments, n), moments[n].Others());
      outcome, others := Attempt(account, op, guard, moments[n]);
      AppliedAppend(was, Meanwhile(moments, n), others);
    }

    /**
     * One pass of the loop: read, expire, change, check, compare-and-swap. A failing pass writes nothing: `others` is
     * what was committed until the change or the checks failed.
     */
    method Attempt(account: string, op: Op, guard: Option<StoredFile>, m: Moment) returns (outcome: Outcome, ghost others: seq<Commit>)
      requires ValidOp(op)
      modifies collection
      ensures match outcome
        case Won => TookEffect(Applied(old(collection.docs), m.Others()), collection.docs, account, op, guard, m)
        case Lost => collection.docs == Applied(old(collection.docs), m.Others())
        case Failed(e) => collection.docs == Applied(old(collection.docs), others) && others <= m.Others() && e != StorageError
    {
      hide Applied, Change, LedgerPurgeAt, StoreObject, Ended;
      ghost var read := collection.docs;
      var before := SnapshotOf(DocOf(collection.docs, account));
      var after := new LedgerDraft(before);
      after.Expire(m.at);
      ghost var es := after.transfers;
      others := m.beforeFetch;
      collection.Interfere(m.beforeFetch);
      var fetched := FetchedFor(DocOf(collection.docs, account), op);
      var change := after.Apply(op, m.at, fetched);
      if change.Err? {
        NotStorage(op, es, m.at, fetched);
        return Failed(change.error), others;
      }
      AppliedAppend(read, m.beforeFetch, m.afterFetch);
      collection.Interfere(m.afterFetch);
      others := m.beforeFetch + m.afterFetch;
      var refused := BeforeCommit(op, guard, m);
      if refused.Some? { return Failed(refused.value), others; }
      AppliedAppend(read, others, m.inFlight);
      collection.Interfere(m.inFlight);
      StillTheSame(read, m.beforeFetch, m.afterFetch + m.inFlight, account, before);
      AppliedAppend(read, m.beforeFetch, m.afterFetch + m.inFlight);
      assert m.beforeFetch + (m.afterFetch + m.inFlight) == m.Others();
      others := m.Others();
      var ok := collection.Replace(account, before, after.transfers, op, m.sent);
      outcome := if ok then Won else Lost;
    }

    /** The hook between the change and the compare-and-swap. */
    method BeforeCommit(op: Op, guard: Option<StoredFile>, m: Moment) returns (refused: Option<FileError>)
      ensures refused == HookError(op, guard, m.trusted, m.sent) && refused != Some(StorageError)
    {
      if op.Cleanup? { return None; }
      if !m.trusted { return Some(AuthorizationError); }
      if (op.Put? || op.Complete?) && guard.Some? { return LiveError(guard.value, m.sent); }
      return None;
    }

    /**
     * A write to a transfer, from locating it to the checks after the commit. Success means that it took effect and
     * that its transfer had not expired when it was answered; a write refused by the last checks has still taken effect
     * at attempt `landed`, and one refused earlier never does.
     */
    method Access(op: Op, sinceLocated: seq<Commit>, moments: seq<Moment>, trusted: bool, answered: int)
      returns (r: Result<nat, FileError>, ghost account: Option<string>, ghost landed: Option<nat>, ghost others: seq<Commit>)
      requires OnTransfer(op) && |moments| == MAX_TRIES
      modifies collection
      ensures r.Ok? ==> landed == Some(r.value)
      ensures account.Some? ==> account.value in old(collection.docs) && Lookup(old(collection.docs)[account.value].transfers, op.id).Some?
      ensures landed.None? ==> r.Err? && collection.docs == Applied(old(collection.docs), others)
      ensures landed.Some? ==>
        && account.Some? && landed.value < MAX_TRIES
        && var guard := Lookup(old(collection.docs)[account.value].transfers, op.id);
           && others == sinceLocated + Meanwhile(moments, landed.value + 1)
           && TookEffect(Applied(old(collection.docs), others), collection.docs, account.value, op, guard, moments[landed.value])
           && r == match HookError(op, guard, trusted, answered) case Some(e) => Err(e) case None => Ok(landed.value)
    {
      hide Serial, Applied, TookEffect, Meanwhile, Lookup;
      ghost var was := collection.docs;
      NothingYet(was, moments);
      landed, others := None, [];
      account := None;
      var found := collection.Locate(op.id);
      if found.None? { return Err(AuthorizationError), account, landed, others; }
      account := found;
      var guard := Lookup(collection.docs[found.value].transfers, op.id);
      collection.Interfere(sinceLocated);
      ghost var tries: nat, rest: seq<Commit>;
      r, tries, rest := Atomic(found.value, op, guard, moments);
      if r.Err? {
        others := sinceLocated + (Meanwhile(moments, tries) + rest);
        AppliedAppend(was, sinceLocated, Meanwhile(moments, tries) + rest);
        return;
      }
      landed, others := Some(r.value), sinceLocated + Meanwhile(moments, tries);
      AppliedAppend(was, sinceLocated, Meanwhile(moments, tries));
      if !trusted { r := Err(AuthorizationError); return; }
      if (op.Put? || op.Complete?) && guard.Some? && LiveError(guard.value, answered).Some? {
        r := Err(LiveError(guard.value, answered).value);
      }
    }
  }

  datatype Outcome = Won | Lost | Failed(error: FileError)

  /** If the revision test would pass, nobody wrote the document since it was read. */
  lemma StillTheSame(read: map<string, Doc>, a: seq<Commit>, b: seq<Commit>, account: string, before: Option<Snapshot>)
    requires before == SnapshotOf(DocOf(read, account))
    ensures var fetchedFrom := Applied(read, a);
      var docs := Applied(fetchedFrom, b);
      CasSucceeds(docs, account, before) ==>
        DocOf(docs, account) == DocOf(fetchedFrom, account) && DocOf(docs, account) == DocOf(read, account)
  {
    AppliedGrows(read, a, account);
    AppliedGrows(Applied(read, a), b, account);
  }

  lemma NotStorage(op: Op, fs: seq<StoredFile>, now: int, fetched: Option<WireObject>)
    requires ValidOp(op)
    ensures Change(op, fs, now, fetched) != Err(StorageError)
  {
  }
}

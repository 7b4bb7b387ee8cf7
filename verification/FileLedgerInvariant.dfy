/** What one committed operation keeps of a whole document: quotas, ciphertext, retention, and finished transfers. */
module FileLedgerInvariant {
  import opened Common
  import opened FileLedger
  import opened PortableContext

  predicate CreatedBy(fs: seq<StoredFile>, clock: int)
  {
    forall f | f in fs :: f.createdAt <= clock
  }

  /** A successful operation on a transfer found it, was allowed, and acted. */
  lemma TargetFound(op: Op, fs: seq<StoredFile>, at: int, fetched: Option<WireObject>)
    requires ValidOp(op) && OnTransfer(op) && DistinctIds(fs)
    requires Change(op, Expire(fs, at), at, fetched).Ok?
    ensures var r := Lookup(fs, op.id);
      && r.Some? && Keep(r.value, at) && Authorized(op.auth, r.value, true)
      && Act(op, ExpireFile(r.value, at), at, fetched).Ok?
  {
    LookupExpire(fs, at, op.id);
  }

  /** A put that stores ciphertext meets a live transfer, and a taken slot has its ciphertext in storage. */
  lemma FetchedWhenTaken(d: Doc, op: Op, at: int)
    requires DocOk(d) && CarriesObject(op)
    ensures FetchedFor(Some(d), op).None? ==>
      forall e | e in Expire(d.transfers, at) && e.Id() == op.id :: op.slot.index !in e.chunks
  {
    hide WithinQuota, PurgeIsLate, ChunksOk, NoncesDistinct, HasEveryChunk, Geometry, ReservationBytes, FindIndex;
    ExpireContents(d.transfers, at);
    forall e | e in Expire(d.transfers, at) && e.Id() == op.id && op.slot.index in e.chunks
      ensures FetchedFor(Some(d), op).Some?
    {
      var f :| f in d.transfers && Keep(f, at) && e == ExpireFile(f, at);
      var k :| 0 <= k < |d.transfers| && d.transfers[k] == f;
      LookupIs(d.transfers, k);
      assert FileOk(f);
      assert SlotAgrees(Lookup(d.transfers, op.id), d.objects, op.id);
    }
  }

  lemma EndedExactly(before: seq<StoredFile>, after: seq<StoredFile>, id: string)
    requires DistinctIds(before) && DistinctIds(after)
    ensures id in Ended(before, after) <==>
      && Lookup(before, id).Some? && Lookup(before, id).value.reserved > 0
      && !(Lookup(after, id).Some? && Lookup(after, id).value.reserved > 0)
  {
    InLookup(before, id);
    InLookup(after, id);
  }

  lemma InLookup(fs: seq<StoredFile>, id: string)
    requires DistinctIds(fs)
    ensures forall f | f in fs && f.Id() == id :: Lookup(fs, id) == Some(f)
  {
    forall f | f in fs && f.Id() == id ensures Lookup(fs, id) == Some(f) {
      var k :| 0 <= k < |fs| && fs[k] == f;
      LookupIs(fs, k);
    }
  }

  /** A transfer that still holds a reservation afterwards was neither expired nor canceled, and held one before. */
  lemma StillReserved(r: Option<StoredFile>, id: string, op: Op, at: int, fetched: Option<WireObject>)
    requires ValidOp(op) && (r.Some? ==> FileOk(r.value))
    requires !(op.Create? && op.context.transferId == id)
    requires var n := NextFile(r, id, op, at, fetched); n.Some? && n.value.reserved > 0
    ensures r.Some? && r.value.reserved > 0 && ExpireFile(r.value, at) == r.value
    ensures !(op.Cancel? && op.id == id)
    ensures !(CarriesObject(op) && op.id == id) ==> NextFile(r, id, op, at, fetched).value.chunks == r.value.chunks
  {
  }

  predicate ReservedNow(r: Option<StoredFile>)
  {
    r.Some? && r.value.reserved > 0
  }

  lemma HeldAfter(objects: map<string, map<nat, WireObject>>, ended: set<string>, op: Op, id: string)
    requires CarriesObject(op) && op.id == id ==> op.slot.index >= 0 && id !in ended
    ensures var next := StoreObject(objects - ended, op);
      if CarriesObject(op) && op.id == id then
        id in next && Held(next, id) == Held(objects, id)[op.slot.index := op.payload]
      else
        (id in next <==> id in objects && id !in ended) && (id !in ended ==> Held(next, id) == Held(objects, id))
  {
  }

  /** Storage and ledger about one transfer, before and after: `r` becomes `n`, and `ended` is unset. */
  lemma SlotStep(objects: map<string, map<nat, WireObject>>, ended: set<string>,
                 r: Option<StoredFile>, op: Op, at: int, fetched: Option<WireObject>, id: string)
    requires ValidOp(op) && (r.Some? ==> FileOk(r.value)) && SlotAgrees(r, objects, id)
    requires op.Create? && op.context.transferId == id ==> r.None?
    requires CarriesObject(op) && op.id == id ==>
      && r.Some? && Keep(r.value, at) && Act(op, ExpireFile(r.value, at), at, fetched).Ok?
      && fetched == if op.slot.index >= 0 && op.slot.index in Held(objects, id) then Some(Held(objects, id)[op.slot.index]) else None
    requires id in ended <==> ReservedNow(r) && !ReservedNow(NextFile(r, id, op, at, fetched))
    ensures SlotAgrees(NextFile(r, id, op, at, fetched), StoreObject(objects - ended, op), id)
  {
    var n := NextFile(r, id, op, at, fetched);
    if CarriesObject(op) && op.id == id {
      PutFindsLive(op, r.value, at, fetched);
      PutKeepsBacked(r.value, Held(objects, id), op, at);
      HeldAfter(objects, ended, op, id);
    } else {
      HeldAfter(objects, ended, op, id);
      if ReservedNow(n) && !(op.Create? && op.context.transferId == id) {
        StillReserved(r, id, op, at, fetched);
      }
    }
  }

  lemma PutFindsLive(op: Op, f: StoredFile, at: int, fetched: Option<WireObject>)
    requires CarriesObject(op) && FileOk(f) && Act(op, ExpireFile(f, at), at, fetched).Ok?
    ensures ExpireFile(f, at) == f && f.reserved > 0
    ensures Act(op, f, at, fetched).value.reserved == f.reserved && op.slot.index >= 0
  {
  }

  /** Storage and ledger still agree about one transfer after an operation commits. */
  lemma SlotAfter(d: Doc, op: Op, at: int, id: string)
    requires ValidOp(op) && DocOk(d) && FreshFor(op, d.transfers)
    requires Change(op, Expire(d.transfers, at), at, FetchedFor(Some(d), op)).Ok?
    ensures var after := Change(op, Expire(d.transfers, at), at, FetchedFor(Some(d), op)).value;
      SlotAgrees(Lookup(after, id), StoreObject(d.objects - Ended(d.transfers, after), op), id)
  {
    var fs, fetched := d.transfers, FetchedFor(Some(d), op);
    var after := Change(op, Expire(fs, at), at, fetched).value;
    LookupChange(op, fs, at, fetched, id);
    EndedExactly(fs, after, id);
    assert SlotAgrees(Lookup(fs, id), d.objects, id);
    if OnTransfer(op) { TargetFound(op, fs, at, fetched); }
    SlotStep(d.objects, Ended(fs, after), Lookup(fs, id), op, at, fetched, id);
  }

  lemma PutKeepsBacked(f: StoredFile, held: map<nat, WireObject>, op: Op, at: int)
    requires FileOk(f) && CarriesObject(op) && Backed(f, held)
    requires var fetched := if op.slot.index >= 0 && op.slot.index in held then Some(held[op.slot.index]) else None;
      PutFile(f, op.slot, op.payload, at, fetched).Ok?
    ensures op.slot.index >= 0
    ensures var fetched := if op.slot.index >= 0 && op.slot.index in held then Some(held[op.slot.index]) else None;
      Backed(PutFile(f, op.slot, op.payload, at, fetched).value, held[op.slot.index := op.payload])
  {
    var i: nat := op.slot.index;
    assert i in held <==> i in f.chunks;
  }

  lemma ChangeKeepsAgreement(doc: Option<Doc>, op: Op, at: int, now: int)
    requires ValidOp(op) && OptDocOk(doc) && FreshFor(op, TransfersOf(doc))
    requires Serial(doc, op, at, now).Ok?
    ensures ObjectsAgree(Serial(doc, op, at, now).value.transfers, Serial(doc, op, at, now).value.objects)
  {
    var after := Serial(doc, op, at, now).value;
    forall id: string
      ensures SlotAgrees(Lookup(after.transfers, id), after.objects, id)
    {
      if doc.Some? {
        SlotAfter(doc.value, op, at, id);
      } else if op.Create? {
        LookupAppend([], NewFile(op.context, at), id);
      }
    }
  }

  lemma FreshAfterExpiry(op: Op, fs: seq<StoredFile>, at: int)
    requires FreshFor(op, fs)
    ensures FreshFor(op, Expire(fs, at))
  {
    hide Expire, Keep;
    ExpireContents(fs, at);
  }

  lemma SerialKeepsLedger(doc: Option<Doc>, op: Op, at: int, now: int)
    requires ValidOp(op) && OptDocOk(doc) && FreshFor(op, TransfersOf(doc))
    requires Serial(doc, op, at, now).Ok?
    ensures LedgerOk(Serial(doc, op, at, now).value.transfers)
  {
    var fs := TransfersOf(doc);
    assert LedgerOk(fs);
    hide DocOk, LedgerOk, FreshFor, Change, Expire, FetchedFor, CarriesObject;
    ExpireKeepsLedger(fs, at);
    FreshAfterExpiry(op, fs, at);
    NothingTaken(doc, op, at);
    ChangeKeepsLedger(op, Expire(fs, at), at, FetchedFor(doc, op));
  }

  lemma NothingTaken(doc: Option<Doc>, op: Op, at: int)
    requires OptDocOk(doc)
    ensures FetchedFor(doc, op).None? && CarriesObject(op) ==>
      forall f | f in Expire(TransfersOf(doc), at) && f.Id() == op.id :: op.slot.index !in f.chunks
  {
    hide DocOk, Expire, FetchedFor;
    if doc.Some? {
      if CarriesObject(op) { FetchedWhenTaken(doc.value, op, at); }
    } else {
      ExpireContents([], at);
    }
  }

  /** The whole document invariant survives every committed operation. */
  lemma SerialKeepsDoc(doc: Option<Doc>, op: Op, at: int, now: int)
    requires ValidOp(op) && OptDocOk(doc) && FreshFor(op, TransfersOf(doc))
    requires at <= now && CreatedBy(TransfersOf(doc), at)
    requires Serial(doc, op, at, now).Ok?
    ensures DocOk(Serial(doc, op, at, now).value)
    ensures CreatedBy(Serial(doc, op, at, now).value.transfers, at)
  {
    SerialKeepsLedger(doc, op, at, now);
    ChangeKeepsAgreement(doc, op, at, now);
    ChangeKeepsCreated(op, TransfersOf(doc), at, FetchedFor(doc, op));
    LateEnough(Serial(doc, op, at, now).value.transfers, now);
  }

  lemma ChangeKeepsCreated(op: Op, fs: seq<StoredFile>, at: int, fetched: Option<WireObject>)
    requires ValidOp(op) && CreatedBy(fs, at) && Change(op, Expire(fs, at), at, fetched).Ok?
    ensures CreatedBy(Change(op, Expire(fs, at), at, fetched).value, at)
  {
    var es := Expire(fs, at);
    ExpireContents(fs, at);
    assert CreatedBy(es, at);
    if OnTransfer(op) {
      var i := FindIndex(es, op.id).value;
      var g := Act(op, es[i], at, fetched).value;
      assert es[i] in es && g.createdAt == es[i].createdAt;
    }
  }

  /** The seven-day cap never cuts a ledger short: a transfer created by now ends its grace day within two days. */
  lemma LateEnough(fs: seq<StoredFile>, now: int)
    requires CreatedBy(fs, now) && forall f | f in fs :: FileOk(f)
    ensures PurgeIsLate(fs, LedgerPurgeAt(fs, now))
  {
  }

  // ---------- retention ----------

  lemma {:induction false} AllDropped(fs: seq<StoredFile>, t: int)
    requires forall f | f in fs :: !Keep(f, t)
    ensures Expire(fs, t) == []
  {
    if fs != [] {
      assert fs[|fs| - 1] in fs;
      AllDropped(fs[..|fs| - 1], t);
    }
  }

  /**
   * Deleting a document at its `purgeAt` cannot be observed: from then on the stale document projects to
   * nothing, and every operation succeeds or fails on it exactly as on a missing one, leaving the same
   * transfers and the same (no) ciphertext. Only the revision counter differs.
   */
  lemma PurgeUnobservable(d: Doc, op: Op, at: int, now: int)
    requires DocOk(d) && ValidOp(op) && FreshFor(op, d.transfers) && d.purgeAt <= at
    ensures Expire(d.transfers, at) == []
    ensures match Serial(None, op, at, now)
      case Err(e) => Serial(Some(d), op, at, now) == Err(e)
      case Ok(first) =>
        && Serial(Some(d), op, at, now).Ok?
        && Serial(Some(d), op, at, now).value == first.(revision := d.revision + 1)
  {
    hide LatestExpiry, ObjectsAgree, LedgerOk;
    AllDropped(d.transfers, at);
    ChangeOfNothing(op, at, FetchedFor(Some(d), op));
    if Change(op, [], at, None).Ok? {
      var after := Change(op, [], at, None).value;
      AllEnded(d, op, after, at);
      hide Change, Expire, Ended;
      assert d.objects - Ended(d.transfers, after) == map[];
    }
  }

  lemma ChangeOfNothing(op: Op, at: int, fetched: Option<WireObject>)
    requires ValidOp(op)
    ensures Change(op, [], at, fetched) == Change(op, [], at, None)
    ensures Change(op, [], at, None).Ok? ==> !OnTransfer(op)
  {
  }

  lemma AllEnded(d: Doc, op: Op, after: seq<StoredFile>, at: int)
    requires DocOk(d) && ValidOp(op) && FreshFor(op, d.transfers)
    requires Change(op, [], at, None) == Ok(after)
    ensures forall id | id in d.objects :: id in Ended(d.transfers, after)
  {
    hide FileOk, WithinQuota, PurgeIsLate;
    forall id | id in d.objects
      ensures id in Ended(d.transfers, after)
    {
      assert SlotAgrees(Lookup(d.transfers, id), d.objects, id);
    }
  }

  // ---------- finished transfers ----------

  /** What a transfer may become once it was `f`: itself, dead, or gone. */
  predicate SameOrGone(f: StoredFile, r: Option<StoredFile>)
  {
    r.None? || r.value == f || ((r.value.state == Canceled || r.value.state == Expired) && r.value.context == f.context)
  }

  /** Available transfers are immutable: manifest, chunks and stored ciphertext stay until cancel or expiry. */
  lemma AvailableIsFrozen(d: Doc, op: Op, at: int, now: int, f: StoredFile)
    requires ValidOp(op) && DocOk(d) && FreshFor(op, d.transfers) && Serial(Some(d), op, at, now).Ok?
    requires Lookup(d.transfers, f.Id()) == Some(f) && f.state == Available
    ensures var after := Serial(Some(d), op, at, now).value;
      && SameOrGone(f, Lookup(after.transfers, f.Id()))
      && (Lookup(after.transfers, f.Id()) == Some(f) ==> Held(after.objects, f.Id()) == Held(d.objects, f.Id()))
  {
    var fetched := FetchedFor(Some(d), op);
    var after := Change(op, Expire(d.transfers, at), at, fetched).value;
    LookupChange(op, d.transfers, at, fetched, f.Id());
    EndedExactly(d.transfers, after, f.Id());
    assert SlotAgrees(Lookup(d.transfers, f.Id()), d.objects, f.Id());
    if OnTransfer(op) { TargetFound(op, d.transfers, at, fetched); }
    FrozenStep(d.objects, Ended(d.transfers, after), f, op, at, fetched);
  }

  lemma FrozenStep(objects: map<string, map<nat, WireObject>>, ended: set<string>, f: StoredFile, op: Op, at: int, fetched: Option<WireObject>)
    requires ValidOp(op) && FileOk(f) && f.state == Available && Backed(f, Held(objects, f.Id()))
    requires op.Create? ==> op.context.transferId != f.Id()
    requires CarriesObject(op) && op.id == f.Id() ==>
      && Keep(f, at) && Act(op, ExpireFile(f, at), at, fetched).Ok?
      && fetched == if op.slot.index >= 0 && op.slot.index in Held(objects, f.Id()) then Some(Held(objects, f.Id())[op.slot.index]) else None
    requires f.Id() in ended <==> !ReservedNow(NextFile(Some(f), f.Id(), op, at, fetched))
    ensures var n := NextFile(Some(f), f.Id(), op, at, fetched);
      SameOrGone(f, n) && (n == Some(f) ==> Held(StoreObject(objects - ended, op), f.Id()) == Held(objects, f.Id()))
  {
    hide Geometry, ReservationBytes, NoncesDistinct, SealedChunkSize;
    var n := NextFile(Some(f), f.Id(), op, at, fetched);
    if CarriesObject(op) && op.id == f.Id() {
      PutFindsLive(op, f, at, fetched);
      var held := Held(objects, f.Id());
      assert op.slot.index in f.chunks && held[op.slot.index] == op.payload;
      assert held[op.slot.index := op.payload] == held;
    }
    if n == Some(f) { HeldAfter(objects, ended, op, f.Id()); }
  }

  function PlainBytes(f: StoredFile, n: nat): (total: int)
    requires forall i: nat | i < n :: i in f.chunks
  {
    if n == 0 then 0 else PlainBytes(f, n - 1) + f.chunks[n - 1].bytes - TAG_LENGTH
  }

  lemma PlainChunk(c: Context, i: nat)
    requires Geometry(c) && i < c.chunkCount
    ensures SealedChunkSize(c, i) - TAG_LENGTH == Min(262144, c.fileSize - i * 262144)
    ensures i * 262144 < c.fileSize
  {
    assert c.chunkSize == 262144;
    assert i <= c.chunkCount - 1;
  }

  lemma {:induction false} PlainBytesPrefix(f: StoredFile, n: nat)
    requires Geometry(f.context) && ChunksOk(f)
    requires n <= f.context.chunkCount && forall i: nat | i < n :: i in f.chunks
    ensures PlainBytes(f, n) == Min(f.context.fileSize, n * 262144)
  {
    if n > 0 {
      PlainBytesPrefix(f, n - 1);
      PlainChunk(f.context, n - 1);
    }
  }

  /** An available transfer has its manifest and every chunk, and the plain bytes add up to the declared size. */
  lemma AvailableIsWhole(f: StoredFile)
    requires FileOk(f) && f.state == Available
    ensures f.manifest.Some? && |f.chunks| == f.context.chunkCount
    ensures forall i: nat | i < f.context.chunkCount :: i in f.chunks
    ensures PlainBytes(f, f.context.chunkCount) == f.context.fileSize
  {
    PlainBytesPrefix(f, f.context.chunkCount);
  }
}

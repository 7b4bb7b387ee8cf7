/**
 * The file transfer ledger (backend/attachments/fileLedger.ts): what one operation does to one account's
 * document, and what every operation keeps. Concurrency is in FileLedgerSystem, the in-place form of these
 * functions in FileLedgerService.
 */
module FileLedger {
  import opened Common
  import opened Bytes
  import PC = PortableContext

  // ---------- limits (service/src/files/protocol.ts) ----------

  const MAX_FILE_SIZE: int := 8 * 1024 * 1024
  const MAX_CHUNK_SIZE: int := 256 * 1024
  const MAX_CHUNK_COUNT: int := 32
  const MAX_METADATA_SIZE: int := 2048
  const MAX_ACTIVE_TRANSFERS: nat := 2
  const MAX_STORED_BYTES_PER_USER: nat := 12 * 1024 * 1024
  const MAX_INCOMPLETE_BYTES_PER_USER: nat := 12 * 1024 * 1024
  const MAX_RECORDS: nat := 32
  const TRANSFER_EXPIRY: int := 24 * 60 * 60 * 1000
  const DAY_MS: int := 24 * 60 * 60 * 1000
  const MAX_UNCLAIMED_MS: int := 7 * DAY_MS
  const NONCE_LENGTH: nat := 12
  const TAG_LENGTH: nat := 16

  function ReservationBytes(size: nat, count: nat): (bytes: nat)
    ensures bytes >= 16384
  {
    CeilDiv((size + count * 16) * 4, 3) + count * 256 + 16384
  }

  // ---------- data ----------

  datatype WireObject = WireObject(nonce: seq<byte>, ciphertext: seq<byte>)

  datatype ChunkRecord = ChunkRecord(nonce: seq<byte>, bytes: nat)

  datatype TransferState = Incomplete | Available | Canceled | Expired

  datatype StoredFile = StoredFile(
    context: PC.Context, createdAt: int, expiresAt: int, state: TransferState,
    reserved: nat, chunks: map<nat, ChunkRecord>, manifest: Option<WireObject>)
  {
    function Id(): (id: string) { context.transferId }
  }

  /** One account's document: the ledger, and the ciphertext objects stored beside it. */
  datatype Doc = Doc(revision: nat, transfers: seq<StoredFile>, objects: map<string, map<nat, WireObject>>, purgeAt: int)

  datatype Auth = Auth(conversationId: string, participantId: string, identityReference: string)

  datatype Slot = ManifestSlot | ChunkSlot(index: int)

  datatype Op =
    | Create(context: PC.Context)
    | Put(auth: Auth, id: string, slot: Slot, payload: WireObject)
    | Complete(auth: Auth, id: string)
    | Cancel(auth: Auth, id: string)
    | Cleanup

  datatype FileError = AuthorizationError | LimitsError | QuotaError | ConflictError | IncompleteError | ExpiredError | CanceledError | StorageError

  datatype FileStatus = FileStatus(
    context: PC.Context, createdAt: int, expiresAt: int, state: TransferState,
    indices: set<nat>, manifest: Option<WireObject>)

  function View(f: StoredFile): (v: FileStatus)
  {
    FileStatus(f.context, f.createdAt, f.expiresAt, f.state, f.chunks.Keys, f.manifest)
  }

  // ---------- expiry ----------

  predicate Keep(f: StoredFile, now: int)
  {
    f.expiresAt + TRANSFER_EXPIRY > now
  }

  function ExpireFile(f: StoredFile, now: int): (e: StoredFile)
  {
    if f.expiresAt <= now then f.(state := Expired, reserved := 0, chunks := map[], manifest := None) else f
  }

  /** The projection every operation starts from: expire what is due, then drop what is a day past that. */
  function Expire(fs: seq<StoredFile>, now: int): (es: seq<StoredFile>)
    ensures |es| <= |fs|
  {
    if fs == [] then []
    else
      var last := fs[|fs| - 1];
      Expire(fs[..|fs| - 1], now) + if Keep(last, now) then [ExpireFile(last, now)] else []
  }

  // ---------- looking up ----------

  predicate DistinctIds(fs: seq<StoredFile>)
  {
    forall i, j | 0 <= i < j < |fs| :: fs[i].Id() != fs[j].Id()
  }

  /** The first transfer with this id, as Array.find gives it. */
  function FindIndex(fs: seq<StoredFile>, id: string): (r: Option<nat>)
    ensures r.Some? ==> r.value < |fs| && fs[r.value].Id() == id
    ensures r.None? ==> forall i | 0 <= i < |fs| :: fs[i].Id() != id
  {
    if fs == [] then None
    else if fs[0].Id() == id then Some(0)
    else match FindIndex(fs[1..], id) case None => None case Some(i) => Some(i + 1)
  }

  function Lookup(fs: seq<StoredFile>, id: string): (r: Option<StoredFile>)
    ensures r.Some? ==> r.value in fs && r.value.Id() == id
    ensures r.None? ==> forall f | f in fs :: f.Id() != id
  {
    match FindIndex(fs, id) case None => None case Some(i) => Some(fs[i])
  }

  lemma LookupIs(fs: seq<StoredFile>, i: nat)
    requires DistinctIds(fs) && i < |fs|
    ensures Lookup(fs, fs[i].Id()) == Some(fs[i])
  {
  }

  // ---------- the four quota measures ----------

  datatype Measure = Records | ActiveCount | StoredBytes | IncompleteBytes

  function Weight(m: Measure, f: StoredFile): (w: nat)
  {
    match m
    case Records => 1
    case ActiveCount => if f.state == Incomplete then 1 else 0
    case StoredBytes => f.reserved
    case IncompleteBytes => if f.state == Incomplete then f.reserved else 0
  }

  function Total(m: Measure, fs: seq<StoredFile>): (t: nat)
  {
    if fs == [] then 0 else Total(m, fs[..|fs| - 1]) + Weight(m, fs[|fs| - 1])
  }

  function Bound(m: Measure): (b: nat)
  {
    match m
    case Records => MAX_RECORDS
    case ActiveCount => MAX_ACTIVE_TRANSFERS
    case StoredBytes => MAX_STORED_BYTES_PER_USER
    case IncompleteBytes => MAX_INCOMPLETE_BYTES_PER_USER
  }

  predicate WithinQuota(fs: seq<StoredFile>)
  {
    && |fs| <= MAX_RECORDS
    && Total(ActiveCount, fs) <= MAX_ACTIVE_TRANSFERS
    && Total(StoredBytes, fs) <= MAX_STORED_BYTES_PER_USER
    && Total(IncompleteBytes, fs) <= MAX_INCOMPLETE_BYTES_PER_USER
  }

  lemma {:induction false} TotalUpdate(m: Measure, fs: seq<StoredFile>, i: nat, g: StoredFile)
    requires i < |fs|
    ensures Total(m, fs[i := g]) == Total(m, fs) - Weight(m, fs[i]) + Weight(m, g)
  {
    var n := |fs| - 1;
    if i < n {
      TotalUpdate(m, fs[..n], i, g);
      assert fs[i := g][..n] == fs[..n][i := g];
    } else {
      assert fs[i := g][..n] == fs[..n];
    }
  }

  lemma {:induction false} TotalExpire(m: Measure, fs: seq<StoredFile>, now: int)
    ensures Total(m, Expire(fs, now)) <= Total(m, fs)
  {
    if fs != [] {
      var n := |fs| - 1;
      TotalExpire(m, fs[..n], now);
      if Keep(fs[n], now) {
        var es := Expire(fs, now);
        assert es[..|es| - 1] == Expire(fs[..n], now);
      } else {
        assert Expire(fs, now) == Expire(fs[..n], now);
      }
    }
  }

  lemma ExpireKeepsQuota(fs: seq<StoredFile>, now: int)
    requires WithinQuota(fs)
    ensures WithinQuota(Expire(fs, now))
  {
    TotalExpire(ActiveCount, fs, now);
    TotalExpire(StoredBytes, fs, now);
    TotalExpire(IncompleteBytes, fs, now);
  }

  // ---------- what an operation does to one transfer ----------

  predicate Authorized(auth: Auth, f: StoredFile, owner: bool)
  {
    var c := f.context;
    var isSender := auth.participantId == c.senderParticipantId && auth.identityReference == c.senderIdentityReference;
    var isRecipient := auth.participantId == c.recipientParticipantId && auth.identityReference == c.recipientIdentityReference;
    c.conversationId == auth.conversationId && if owner then isSender else isSender || isRecipient
  }

  function LiveError(f: StoredFile, now: int): (e: Option<FileError>)
  {
    if f.state == Expired || f.expiresAt <= now then Some(ExpiredError)
    else if f.state == Canceled then Some(CanceledError)
    else None
  }

  predicate Sealed(payload: WireObject, max: int)
  {
    |payload.nonce| == NONCE_LENGTH && TAG_LENGTH <= |payload.ciphertext| <= max
  }

  function SealedChunkSize(c: PC.Context, index: int): (size: int)
  {
    Min(c.chunkSize, c.fileSize - index * c.chunkSize) + TAG_LENGTH
  }

  predicate NonceUsed(f: StoredFile, nonce: seq<byte>)
  {
    || (f.manifest.Some? && f.manifest.value.nonce == nonce)
    || exists k | k in f.chunks :: f.chunks[k].nonce == nonce
  }

  /** `fetched` is the ciphertext that storage returned for this slot; it is looked at only when the slot is taken. */
  function PutFile(f: StoredFile, slot: Slot, payload: WireObject, now: int, fetched: Option<WireObject>): (r: Result<StoredFile, FileError>)
  {
    var dead := LiveError(f, now);
    if dead.Some? then Err(dead.value)
    else match slot
    case ManifestSlot =>
      if !Sealed(payload, MAX_METADATA_SIZE) then Err(LimitsError)
      else if f.manifest.Some? then
        if f.manifest.value != payload then Err(ConflictError) else Ok(f)
      else if f.state != Incomplete || NonceUsed(f, payload.nonce) then Err(ConflictError)
      else Ok(f.(manifest := Some(payload)))
    case ChunkSlot(index) =>
      if index < 0 || index >= f.context.chunkCount then Err(LimitsError)
      else
        var max := SealedChunkSize(f.context, index);
        if !Sealed(payload, max) || |payload.ciphertext| != max then Err(LimitsError)
        else if index in f.chunks && fetched.Some? then
          if fetched.value != payload then Err(ConflictError) else Ok(f)
        else if f.state != Incomplete || NonceUsed(f, payload.nonce) then Err(ConflictError)
        else Ok(f.(chunks := f.chunks[index := ChunkRecord(payload.nonce, |payload.ciphertext|)]))
  }

  predicate HasEveryChunk(f: StoredFile)
  {
    |f.chunks| == f.context.chunkCount && forall i: nat | i < f.context.chunkCount :: i in f.chunks
  }

  function CompleteFile(f: StoredFile, now: int): (r: Result<StoredFile, FileError>)
  {
    var dead := LiveError(f, now);
    if dead.Some? then Err(dead.value)
    else if f.manifest.None? || !HasEveryChunk(f) then Err(IncompleteError)
    else Ok(f.(state := Available))
  }

  function CancelFile(f: StoredFile): (g: StoredFile)
  {
    f.(state := if f.state != Expired then Canceled else f.state, reserved := 0, chunks := map[], manifest := None)
  }

  predicate OnTransfer(op: Op)
  {
    op.Put? || op.Complete? || op.Cancel?
  }

  function Act(op: Op, f: StoredFile, now: int, fetched: Option<WireObject>): (r: Result<StoredFile, FileError>)
    requires OnTransfer(op)
  {
    match op
    case Put(_, _, slot, payload) => PutFile(f, slot, payload, now, fetched)
    case Complete(_, _) => CompleteFile(f, now)
    case Cancel(_, _) => Ok(CancelFile(f))
  }

  function NewFile(c: PC.Context, now: int): (f: StoredFile)
    requires c.fileSize >= 0 && c.chunkCount >= 0
  {
    StoredFile(c, now, now + TRANSFER_EXPIRY, Incomplete, ReservationBytes(c.fileSize, c.chunkCount), map[], None)
  }

  predicate QuotaAllows(fs: seq<StoredFile>, reserved: nat)
  {
    && |fs| < MAX_RECORDS
    && Total(ActiveCount, fs) < MAX_ACTIVE_TRANSFERS
    && Total(StoredBytes, fs) + reserved <= MAX_STORED_BYTES_PER_USER
    && Total(IncompleteBytes, fs) + reserved <= MAX_INCOMPLETE_BYTES_PER_USER
  }

  /** The numbers of an accepted file context. */
  predicate Geometry(c: PC.Context)
  {
    && 1 <= c.fileSize <= MAX_FILE_SIZE
    && c.chunkSize == MAX_CHUNK_SIZE
    && c.chunkCount == CeilDiv(c.fileSize, MAX_CHUNK_SIZE)
    && 1 <= c.chunkCount <= MAX_CHUNK_COUNT
  }

  /** `validateFileContext`: an acceptable manifest context, within the file limits. */
  predicate ValidFileContext(c: PC.Context)
  {
    PC.ValidContext(c) && c.fileSize <= MAX_FILE_SIZE && c.chunkSize == MAX_CHUNK_SIZE && c.chunkCount <= MAX_CHUNK_COUNT
  }

  predicate ValidOp(op: Op)
  {
    op.Create? ==> Geometry(op.context)
  }

  /** The `change` callback of one operation, on a ledger that has just been expired. */
  function Change(op: Op, fs: seq<StoredFile>, now: int, fetched: Option<WireObject>): (r: Result<seq<StoredFile>, FileError>)
    requires ValidOp(op)
  {
    match op
    case Cleanup => Ok(fs)
    case Create(c) =>
      if QuotaAllows(fs, ReservationBytes(c.fileSize, c.chunkCount)) then Ok(fs + [NewFile(c, now)]) else Err(QuotaError)
    case _ =>
      match FindIndex(fs, op.id)
      case None => Err(AuthorizationError)
      case Some(i) =>
        if !Authorized(op.auth, fs[i], true) then Err(AuthorizationError)
        else match Act(op, fs[i], now, fetched)
          case Err(e) => Err(e)
          case Ok(g) => Ok(fs[i := g])
  }

  // ---------- the document write ----------

  function Held(objects: map<string, map<nat, WireObject>>, id: string): (held: map<nat, WireObject>)
  {
    if id in objects then objects[id] else map[]
  }

  predicate Reserves(fs: seq<StoredFile>, id: string)
  {
    exists f | f in fs :: f.Id() == id && f.reserved > 0
  }

  /** Transfers whose reservation ends with this write; their objects go in the same write. */
  function Ended(before: seq<StoredFile>, after: seq<StoredFile>): (ids: set<string>)
  {
    set f | f in before && f.reserved > 0 && !Reserves(after, f.Id()) :: f.Id()
  }

  /** The ciphertext that travels with the write: only a chunk put carries one. */
  predicate CarriesObject(op: Op)
  {
    op.Put? && op.slot.ChunkSlot?
  }

  function StoreObject(objects: map<string, map<nat, WireObject>>, op: Op): (r: map<string, map<nat, WireObject>>)
  {
    if CarriesObject(op) && op.slot.index >= 0 then objects[op.id := Held(objects, op.id)[op.slot.index := op.payload]] else objects
  }

  function LatestExpiry(fs: seq<StoredFile>): (t: int)
    requires fs != []
    ensures forall f | f in fs :: f.expiresAt <= t
    ensures exists f | f in fs :: f.expiresAt == t
  {
    var last := fs[|fs| - 1];
    if |fs| == 1 then assert last in fs; last.expiresAt
    else
      var rest := LatestExpiry(fs[..|fs| - 1]);
      assert last in fs && forall f | f in fs :: f == last || f in fs[..|fs| - 1];
      Max(rest, last.expiresAt)
  }

  function LedgerPurgeAt(fs: seq<StoredFile>, now: int): (t: int)
  {
    if fs == [] then now else Min(LatestExpiry(fs) + DAY_MS, now + MAX_UNCLAIMED_MS)
  }

  function TransfersOf(doc: Option<Doc>): (fs: seq<StoredFile>)
  {
    match doc case None => [] case Some(d) => d.transfers
  }

  function ObjectsOf(doc: Option<Doc>): (objects: map<string, map<nat, WireObject>>)
  {
    match doc case None => map[] case Some(d) => d.objects
  }

  /** `replace` when its revision test succeeds. The inserting branch stores no ciphertext. */
  function Replaced(doc: Option<Doc>, after: seq<StoredFile>, op: Op, now: int): (d: Doc)
  {
    match doc
    case None => Doc(1, after, map[], LedgerPurgeAt(after, now))
    case Some(was) =>
      Doc(was.revision + 1, after, StoreObject(was.objects - Ended(was.transfers, after), op), LedgerPurgeAt(after, now))
  }

  /** What `persistence.object` finds for the slot a put addresses. */
  function FetchedFor(doc: Option<Doc>, op: Op): (r: Option<WireObject>)
  {
    if CarriesObject(op) && op.slot.index >= 0 && op.slot.index in Held(ObjectsOf(doc), op.id)
    then Some(Held(ObjectsOf(doc), op.id)[op.slot.index]) else None
  }

  /** One operation run alone: read, expire and change at `at`, write at `now`. */
  function Serial(doc: Option<Doc>, op: Op, at: int, now: int): (r: Result<Doc, FileError>)
    requires ValidOp(op)
  {
    match Change(op, Expire(TransfersOf(doc), at), at, FetchedFor(doc, op))
    case Err(e) => Err(e)
    case Ok(after) => Ok(Replaced(doc, after, op, now))
  }

  // ---------- what every operation keeps ----------

  predicate ReservationOk(f: StoredFile)
    requires Geometry(f.context)
  {
    if f.state == Incomplete || f.state == Available then
      f.reserved == ReservationBytes(f.context.fileSize, f.context.chunkCount)
    else
      f.reserved == 0 && f.chunks == map[] && f.manifest.None?
  }

  predicate NoncesDistinct(f: StoredFile)
  {
    && (forall i, j | i in f.chunks && j in f.chunks && i != j :: f.chunks[i].nonce != f.chunks[j].nonce)
    && (f.manifest.Some? ==> forall i | i in f.chunks :: f.chunks[i].nonce != f.manifest.value.nonce)
  }

  predicate ChunksOk(f: StoredFile)
  {
    forall i | i in f.chunks :: i < f.context.chunkCount && f.chunks[i].bytes == SealedChunkSize(f.context, i)
  }

  predicate FileOk(f: StoredFile)
  {
    && Geometry(f.context)
    && f.expiresAt == f.createdAt + TRANSFER_EXPIRY
    && ReservationOk(f)
    && ChunksOk(f)
    && NoncesDistinct(f)
    && (f.state == Available ==> f.manifest.Some? && HasEveryChunk(f))
  }

  /** The stored ciphertext of one transfer is exactly what its ledger entry records. */
  predicate Backed(f: StoredFile, held: map<nat, WireObject>)
  {
    && held.Keys == f.chunks.Keys
    && forall i | i in held :: held[i].nonce == f.chunks[i].nonce && |held[i].ciphertext| == f.chunks[i].bytes
  }

  predicate SlotAgrees(r: Option<StoredFile>, objects: map<string, map<nat, WireObject>>, id: string)
  {
    if r.Some? && r.value.reserved > 0 then Backed(r.value, Held(objects, id)) else id !in objects
  }

  ghost predicate ObjectsAgree(fs: seq<StoredFile>, objects: map<string, map<nat, WireObject>>)
  {
    forall id: string :: SlotAgrees(Lookup(fs, id), objects, id)
  }

  predicate LedgerOk(fs: seq<StoredFile>)
  {
    DistinctIds(fs) && WithinQuota(fs) && forall f | f in fs :: FileOk(f)
  }

  /** Nothing is purged while it can still be seen: every record is past its grace day at `purgeAt`. */
  predicate PurgeIsLate(fs: seq<StoredFile>, purgeAt: int)
  {
    forall f | f in fs :: f.expiresAt + TRANSFER_EXPIRY <= purgeAt
  }

  ghost predicate DocOk(d: Doc)
  {
    LedgerOk(d.transfers) && ObjectsAgree(d.transfers, d.objects) && PurgeIsLate(d.transfers, d.purgeAt)
  }

  ghost predicate OptDocOk(doc: Option<Doc>)
  {
    doc.Some? ==> DocOk(doc.value)
  }

  lemma ActKeepsFile(op: Op, f: StoredFile, now: int, fetched: Option<WireObject>)
    requires FileOk(f) && OnTransfer(op) && Act(op, f, now, fetched).Ok?
    requires fetched.None? ==> !(CarriesObject(op) && op.slot.index in f.chunks)
    ensures var g := Act(op, f, now, fetched).value;
      && FileOk(g) && g.context == f.context && g.createdAt == f.createdAt && g.expiresAt == f.expiresAt
      && (forall m: Measure :: Weight(m, g) <= Weight(m, f))
  {
    var g := Act(op, f, now, fetched).value;
    if op.Put? && g != f && op.slot.ChunkSlot? {
      var i: nat := op.slot.index;
      assert i !in f.chunks;
      assert g.chunks == f.chunks[i := ChunkRecord(op.payload.nonce, |op.payload.ciphertext|)];
    }
  }

  lemma ExpireFileKeepsOk(f: StoredFile, now: int)
    requires FileOk(f)
    ensures FileOk(ExpireFile(f, now))
  {
  }

  lemma {:induction false} ExpireContents(fs: seq<StoredFile>, now: int)
    ensures forall e | e in Expire(fs, now) :: exists f | f in fs :: Keep(f, now) && e == ExpireFile(f, now)
    ensures forall f | f in fs && Keep(f, now) :: ExpireFile(f, now) in Expire(fs, now)
  {
    if fs != [] {
      var n := |fs| - 1;
      ExpireContents(fs[..n], now);
      assert fs == fs[..n] + [fs[n]];
      forall e | e in Expire(fs, now)
        ensures exists f | f in fs :: Keep(f, now) && e == ExpireFile(f, now)
      {
        if e in Expire(fs[..n], now) {
          var f :| f in fs[..n] && Keep(f, now) && e == ExpireFile(f, now);
          assert f in fs;
        } else {
          assert fs[n] in fs;
        }
      }
    }
  }

  lemma {:induction false} ExpireDistinct(fs: seq<StoredFile>, now: int)
    requires DistinctIds(fs)
    ensures DistinctIds(Expire(fs, now))
  {
    if fs != [] {
      var n := |fs| - 1;
      ExpireDistinct(fs[..n], now);
      ExpireContents(fs[..n], now);
      var es := Expire(fs, now);
      hide Keep;
      forall i, j | 0 <= i < j < |es|
        ensures es[i].Id() != es[j].Id()
      {
        var front := Expire(fs[..n], now);
        assert es[i] == front[i] && front[i] in front;
        var f :| f in fs[..n] && Keep(f, now) && es[i] == ExpireFile(f, now);
        var k :| 0 <= k < n && fs[..n][k] == f;
        assert fs[k].Id() != fs[n].Id();
      }
    }
  }

  /** Transfer by transfer, expiry is: drop, expire or keep. */
  lemma LookupExpire(fs: seq<StoredFile>, now: int, id: string)
    requires DistinctIds(fs)
    ensures Lookup(Expire(fs, now), id) ==
      match Lookup(fs, id)
      case None => None
      case Some(f) => if Keep(f, now) then Some(ExpireFile(f, now)) else None
  {
    ExpireContents(fs, now);
    ExpireDistinct(fs, now);
    var es := Expire(fs, now);
    var r := Lookup(fs, id);
    match Lookup(es, id) {
      case Some(e) =>
        var f :| f in fs && Keep(f, now) && e == ExpireFile(f, now);
        var k :| 0 <= k < |fs| && fs[k] == f;
        LookupIs(fs, k);
      case None =>
        assert r.Some? && Keep(r.value, now) ==> ExpireFile(r.value, now) in es;
    }
  }

  /** The transfer `id` after one successful operation, in terms of the same transfer before it. */
  function NextFile(r: Option<StoredFile>, id: string, op: Op, at: int, fetched: Option<WireObject>): (n: Option<StoredFile>)
    requires ValidOp(op)
  {
    if op.Create? && op.context.transferId == id then Some(NewFile(op.context, at))
    else if r.None? || !Keep(r.value, at) then None
    else
      var e := ExpireFile(r.value, at);
      if OnTransfer(op) && op.id == id && Act(op, e, at, fetched).Ok? then Some(Act(op, e, at, fetched).value) else Some(e)
  }

  predicate FreshFor(op: Op, fs: seq<StoredFile>)
  {
    op.Create? ==> forall f | f in fs :: f.Id() != op.context.transferId
  }

  lemma ExpireKeepsLedger(fs: seq<StoredFile>, now: int)
    requires LedgerOk(fs)
    ensures LedgerOk(Expire(fs, now))
  {
    ExpireDistinct(fs, now);
    ExpireKeepsQuota(fs, now);
    ExpireContents(fs, now);
    forall e | e in Expire(fs, now)
      ensures FileOk(e)
    {
      var f :| f in fs && Keep(f, now) && e == ExpireFile(f, now);
      ExpireFileKeepsOk(f, now);
    }
  }

  lemma ActKeepsId(op: Op, f: StoredFile, now: int, fetched: Option<WireObject>)
    requires OnTransfer(op) && Act(op, f, now, fetched).Ok?
    ensures Act(op, f, now, fetched).value.context == f.context
    ensures Act(op, f, now, fetched).value.expiresAt == f.expiresAt
  {
  }

  lemma LookupUpdate(fs: seq<StoredFile>, i: nat, g: StoredFile, id: string)
    requires DistinctIds(fs) && i < |fs| && g.Id() == fs[i].Id()
    ensures DistinctIds(fs[i := g])
    ensures Lookup(fs[i := g], id) == if id == g.Id() then Some(g) else Lookup(fs, id)
  {
    var gs := fs[i := g];
    forall j, k | 0 <= j < k < |gs| ensures gs[j].Id() != gs[k].Id() { assert fs[j].Id() != fs[k].Id(); }
    if id == g.Id() {
      LookupIs(gs, i);
    } else {
      match FindIndex(fs, id) {
        case Some(k) =>
          LookupIs(fs, k);
          LookupIs(gs, k);
        case None =>
          assert forall k | 0 <= k < |gs| :: gs[k].Id() != id;
      }
    }
  }

  lemma LookupAppend(fs: seq<StoredFile>, f: StoredFile, id: string)
    requires DistinctIds(fs) && forall g | g in fs :: g.Id() != f.Id()
    ensures DistinctIds(fs + [f])
    ensures Lookup(fs + [f], id) == if id == f.Id() then Some(f) else Lookup(fs, id)
  {
    var gs := fs + [f];
    assert forall k | 0 <= k < |fs| :: fs[k] in fs;
    if id == f.Id() {
      LookupIs(gs, |fs|);
    } else {
      match FindIndex(fs, id) {
        case Some(k) =>
          LookupIs(fs, k);
          LookupIs(gs, k);
        case None =>
          assert forall k | 0 <= k < |gs| :: gs[k].Id() != id;
      }
    }
  }

  /** One successful operation acts on each transfer separately. */
  lemma LookupChange(op: Op, fs: seq<StoredFile>, at: int, fetched: Option<WireObject>, id: string)
    requires ValidOp(op) && DistinctIds(fs) && FreshFor(op, fs)
    requires Change(op, Expire(fs, at), at, fetched).Ok?
    ensures var after := Change(op, Expire(fs, at), at, fetched).value;
      DistinctIds(after) && Lookup(after, id) == NextFile(Lookup(fs, id), id, op, at, fetched)
  {
    var es := Expire(fs, at);
    ExpireDistinct(fs, at);
    LookupExpire(fs, at, id);
    match op {
      case Cleanup =>
      case Create(c) =>
        ExpireContents(fs, at);
        LookupAppend(es, NewFile(c, at), id);
      case _ =>
        var i := FindIndex(es, op.id).value;
        ActKeepsId(op, es[i], at, fetched);
        LookupUpdate(es, i, Act(op, es[i], at, fetched).value, id);
    }
  }

  /** Every operation keeps the four quota bounds and every record well formed. */
  lemma ChangeKeepsLedger(op: Op, fs: seq<StoredFile>, now: int, fetched: Option<WireObject>)
    requires ValidOp(op) && LedgerOk(fs) && FreshFor(op, fs)
    requires Change(op, fs, now, fetched).Ok?
    requires fetched.None? && CarriesObject(op) ==> forall f | f in fs && f.Id() == op.id :: op.slot.index !in f.chunks
    ensures LedgerOk(Change(op, fs, now, fetched).value)
  {
    match op {
      case Cleanup =>
      case Create(c) =>
        LedgerAppend(fs, c, now);
      case _ =>
        var i := FindIndex(fs, op.id).value;
        assert fs[i] in fs;
        ActKeepsFile(op, fs[i], now, fetched);
        LedgerUpdate(fs, i, Act(op, fs[i], now, fetched).value);
    }
  }

  lemma LedgerAppend(fs: seq<StoredFile>, c: PC.Context, now: int)
    requires LedgerOk(fs) && Geometry(c) && forall f | f in fs :: f.Id() != c.transferId
    requires QuotaAllows(fs, ReservationBytes(c.fileSize, c.chunkCount))
    ensures LedgerOk(fs + [NewFile(c, now)])
  {
    var f := NewFile(c, now);
    LookupAppend(fs, f, f.Id());
    var after := fs + [f];
    assert after[..|after| - 1] == fs;
  }

  /** Replacing a record by a well-formed one that weighs no more keeps the ledger. */
  lemma LedgerUpdate(fs: seq<StoredFile>, i: nat, g: StoredFile)
    requires LedgerOk(fs) && i < |fs|
    requires FileOk(g) && g.Id() == fs[i].Id() && forall m: Measure :: Weight(m, g) <= Weight(m, fs[i])
    ensures LedgerOk(fs[i := g])
  {
    LookupUpdate(fs, i, g, g.Id());
    TotalUpdate(ActiveCount, fs, i, g);
    TotalUpdate(StoredBytes, fs, i, g);
    TotalUpdate(IncompleteBytes, fs, i, g);
    forall f | f in fs[i := g] ensures FileOk(f) {
      var k :| 0 <= k < |fs| && fs[i := g][k] == f;
      assert fs[k] in fs;
    }
  }
}

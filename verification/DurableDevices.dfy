/**
 * The durable device authority (backend/security/durableDeviceTrust.ts): bootstrap, enrollment, activation,
 * revocation and proof verification as racing workers, one database access at a time, over the device records, the
 * identifier registry and the replay records that the database purges at their expiry.
 */
module DurableDevices {
  import opened Common
  import opened DeviceTrust

  const LIFECYCLE_CLOCK_SKEW: int := 5_000
  const MAX_BOOTSTRAP_LIFETIME: int := 300_000
  const PENDING_ACCOUNT: string := "bootstrap-pending"

  datatype Name = Name(account: string, device: string)

  datatype Bootstrap = Bootstrap(
    requestId: string, device: string, identity: string, fingerprint: string, verificationKey: string, nonce: string,
    createdAt: int, expiresAt: int)

  datatype Enrollment = Enrollment(
    id: string, account: string, issuer: string, issuerIdentity: string, issuerEpoch: int, target: string,
    targetIdentity: string, targetKey: string, targetFingerprint: string, createdAt: int, expiresAt: int)

  datatype Change = Activation | Revocation | OtherChange

  datatype Control = Control(
    id: string, account: string, issuer: string, issuerIdentity: string, target: string, targetIdentity: string,
    change: Change, previousEpoch: int, nextEpoch: int, createdAt: int, expiresAt: int)

  /** Formats and signatures. */
  datatype Crypto = Crypto(
    sign: Claim -> string, bootstrapValid: Bootstrap -> bool, enrollmentSigned: (Enrollment, string) -> bool,
    controlValid: (Control, string, int) -> bool)

  /** A one-time identifier to be consumed. */
  datatype Token = Token(id: string, device: string, expiresAt: int)

  /** What a worker goes on to once the token it is consuming has been recorded. */
  datatype Goal =
    | Finish
    | Answer(proof: Proof)
    | EnrollWith(e: Enrollment, proof: Proof, at: int)
    | RevokeWith(c: Control, proof: Proof, target: Record, at: int)

  /** Where a worker waits for the database. `at` is the clock reading of the call. */
  datatype Worker =
    | BootReserve(b: Bootstrap, at: int)
    | BootUpsert(b: Bootstrap, at: int, account: string)
    | BootBind(b: Bootstrap, account: string)
    | EnrollIssuer(e: Enrollment, proof: Proof, at: int)
    | EnrollReserve(e: Enrollment, at: int)
    | EnrollUpsert(e: Enrollment, at: int)
    | ActivateSwap(c: Control, target: Record, at: int)
    | RevokeTarget(c: Control, proof: Proof, issuer: Record, at: int)
    | RevokeSwap(c: Control, target: Record, at: int)
    | ProofRead(proof: Proof, goal: Goal)
    | TokenCheck(token: Token, goal: Goal)
    | TokenInsert(token: Token, goal: Goal)

  /** A token recorded as consumed, and when the record landed. */
  datatype Consumption = Consumption(token: Token, landed: int)

  /** A proof accepted for a request, and when. */
  datatype Acceptance = Acceptance(proof: Proof, landed: int)

  /** `log` and `answers` list the tokens consumed and the proofs accepted so far. */
  datatype System = System(
    devices: map<Name, Record>, registry: map<string, string>, replay: map<Name, int>, clock: int,
    workers: map<nat, Worker>, log: seq<Consumption>, answers: seq<Acceptance>)

  datatype Event =
    | Tick(elapsed: nat)
    | ReplayTtl(name: Name)
    | StartBootstrap(w: nat, b: Bootstrap)
    | StartEnroll(w: nat, e: Enrollment, proof: Proof)
    | StartActivate(w: nat, c: Control)
    | StartRevoke(w: nat, c: Control, proof: Proof)
    | StartVerify(w: nat, proof: Proof, operation: Operation)
    | Proceed(w: nat, account: string)
    | UpsertRefused(w: nat)
    | Crash(w: nat)

  function Drop(s: System, w: nat): (t: System)
  {
    s.(workers := s.workers - {w})
  }

  function Goto(s: System, w: nat, k: Worker): (t: System)
  {
    s.(workers := s.workers[w := k])
  }

  function NameOf(r: Record): (n: Name)
  {
    Name(r.account, r.device)
  }

  predicate KnowsDevice(s: System, device: string)
  {
    exists n | n in s.devices :: n.device == device
  }

  /** The checks of a proof before its record is read. */
  predicate ProofChecks(h: Crypto, proof: Proof, operation: Operation, now: int)
  {
    proof.claim.operation == operation && proof.claim.expiresAt > now && proof.signature == h.sign(proof.claim)
  }

  predicate ProofMatches(s: System, c: Claim)
  {
    var n := Name(c.account, c.device);
    n in s.devices && s.devices[n].state == Active && s.devices[n].identity == c.identity && s.devices[n].epoch == c.epoch
  }

  predicate MayBootstrap(h: Crypto, b: Bootstrap, now: int)
  {
    && b.identity != "" && b.fingerprint == b.identity && b.createdAt <= now + LIFECYCLE_CLOCK_SKEW && b.expiresAt > now
    && b.expiresAt - b.createdAt <= MAX_BOOTSTRAP_LIFETIME && h.bootstrapValid(b)
  }

  predicate MayEnroll(h: Crypto, e: Enrollment, issuer: Record, now: int)
  {
    && issuer.state == Active && issuer.verificationKey != "" && e.expiresAt > now && e.createdAt <= now + LIFECYCLE_CLOCK_SKEW
    && e.issuer != e.target && e.issuerEpoch == issuer.epoch && e.issuerIdentity == issuer.identity && e.targetFingerprint != ""
    && h.enrollmentSigned(e, issuer.verificationKey)
  }

  predicate MayActivate(h: Crypto, c: Control, target: Record, now: int)
  {
    && target.state == Pending && c.change == Activation && c.issuer == target.device && c.issuerIdentity == target.identity
    && c.targetIdentity == target.identity && c.previousEpoch == target.epoch && c.nextEpoch == target.epoch + 1
    && h.controlValid(c, target.verificationKey, now)
  }

  predicate MayRevoke(h: Crypto, c: Control, issuer: Record, target: Record, now: int)
  {
    && issuer.state == Active && target.state == Active && c.issuer != c.target && c.change == Revocation
    && issuer.epoch == c.previousEpoch && c.nextEpoch == c.previousEpoch + 1 && h.controlValid(c, issuer.verificationKey, now)
  }

  function FirstRecord(b: Bootstrap, account: string, at: int): (r: Record)
  {
    Record(account, b.device, b.identity, b.verificationKey, Active, 1, at, None, at)
  }

  function EnrolledRecord(e: Enrollment, at: int): (r: Record)
  {
    Record(e.account, e.target, e.targetIdentity, e.targetKey, Pending, e.issuerEpoch + 1, at, None, at)
  }

  function ActivatedRecord(r: Record, epoch: int, at: int): (n: Record)
  {
    r.(state := Active, epoch := epoch, lastUpdate := at)
  }

  function RevokedFrom(r: Record, at: int): (n: Record)
  {
    r.(state := Revoked, epoch := r.epoch + 1, lastUpdate := at, revokedAt := Some(at))
  }

  /** The update conditioned on the epoch that was read. */
  function Swapped(s: System, w: nat, target: Record, next: Record, token: Token): (t: System)
  {
    var n := NameOf(target);
    if n in s.devices && s.devices[n].epoch == target.epoch
    then Goto(s, w, TokenCheck(token, Finish)).(devices := s.devices[n := next])
    else Drop(s, w)
  }

  function Continue(s: System, w: nat, goal: Goal): (t: System)
  {
    match goal
    case Finish => Drop(s, w)
    case Answer(proof) => Drop(s, w).(answers := s.answers + [Acceptance(proof, s.clock)])
    case EnrollWith(e, proof, at) =>
      if proof.claim.account == e.account && proof.claim.device == e.issuer && proof.claim.identity == e.issuerIdentity
         && proof.claim.epoch == e.issuerEpoch
      then Goto(s, w, EnrollReserve(e, at)) else Drop(s, w)
    case RevokeWith(c, proof, target, at) =>
      if proof.claim.account == c.account && proof.claim.device == c.issuer && proof.claim.epoch == c.previousEpoch
      then Goto(s, w, RevokeSwap(c, target, at)) else Drop(s, w)
  }

  /** The unique index refuses a second record of the same identifier and device. */
  function DoInsert(s: System, w: nat, token: Token, goal: Goal): (t: System)
  {
    var n := Name(token.id, token.device);
    if n in s.replay then Drop(s, w)
    else Continue(s.(replay := s.replay[n := token.expiresAt], log := s.log + [Consumption(token, s.clock)]), w, goal)
  }

  function DoRegistry(s: System, w: nat, k: Worker, account: string): (t: System)
    requires k.BootReserve? || k.BootUpsert? || k.BootBind? || k.EnrollReserve? || k.EnrollUpsert?
  {
    match k
    case BootReserve(b, at) =>
      if b.device in s.registry then Drop(s, w)
      else Goto(s, w, BootUpsert(b, at, account)).(registry := s.registry[b.device := PENDING_ACCOUNT])
    case BootUpsert(b, at, a) =>
      Goto(s, w, BootBind(b, a)).(devices := s.devices[Name(a, b.device) := FirstRecord(b, a, at)])
    case BootBind(b, a) =>
      if b.device in s.registry && s.registry[b.device] == PENDING_ACCOUNT
      then Goto(s, w, TokenCheck(Token(b.requestId, b.device, b.expiresAt), Finish)).(registry := s.registry[b.device := a])
      else Drop(s, w)
    case EnrollReserve(e, at) =>
      if e.target in s.registry then Drop(s, w)
      else Goto(s, w, EnrollUpsert(e, at)).(registry := s.registry[e.target := e.account])
    case EnrollUpsert(e, at) =>
      Goto(s, w, TokenCheck(Token(e.id, e.issuer, e.expiresAt), Finish)).(devices := s.devices[Name(e.account, e.target) := EnrolledRecord(e, at)])
  }

  function DoProceed(h: Crypto, s: System, w: nat, account: string): (t: System)
    requires w in s.workers
  {
    match s.workers[w]
    case EnrollIssuer(e, proof, at) =>
      var n := Name(e.account, e.issuer);
      if n in s.devices && MayEnroll(h, e, s.devices[n], at) && ProofChecks(h, proof, DeviceControl, s.clock)
      then Goto(s, w, ProofRead(proof, EnrollWith(e, proof, at))) else Drop(s, w)
    case RevokeTarget(c, proof, issuer, at) =>
      var n := Name(c.account, c.target);
      if n in s.devices && MayRevoke(h, c, issuer, s.devices[n], at) && ProofChecks(h, proof, DeviceControl, s.clock)
      then Goto(s, w, ProofRead(proof, RevokeWith(c, proof, s.devices[n], at))) else Drop(s, w)
    case ActivateSwap(c, target, at) =>
      Swapped(s, w, target, ActivatedRecord(target, c.nextEpoch, at), Token(c.id, target.device, c.expiresAt))
    case RevokeSwap(c, target, at) =>
      Swapped(s, w, target, RevokedFrom(target, at), Token(c.id, c.issuer, c.expiresAt))
    case ProofRead(proof, goal) =>
      if ProofMatches(s, proof.claim)
      then Goto(s, w, TokenCheck(Token(proof.claim.proofId, proof.claim.device, proof.claim.expiresAt), goal)) else Drop(s, w)
    case TokenCheck(token, goal) =>
      if token.expiresAt <= s.clock then Drop(s, w) else Goto(s, w, TokenInsert(token, goal))
    case TokenInsert(token, goal) => DoInsert(s, w, token, goal)
    case k => DoRegistry(s, w, k, account)
  }

  /** An upsert that matched nothing gives its reservation back. */
  function DoRefuse(s: System, w: nat): (t: System)
    requires w in s.workers
  {
    match s.workers[w]
    case BootUpsert(b, _, _) =>
      Drop(s, w).(registry := if b.device in s.registry && s.registry[b.device] == PENDING_ACCOUNT then s.registry - {b.device} else s.registry)
    case EnrollUpsert(e, _) =>
      Drop(s, w).(registry := if e.target in s.registry && s.registry[e.target] == e.account then s.registry - {e.target} else s.registry)
    case _ => s
  }

  /** The account reference of a bootstrap is a fresh random identifier. */
  predicate FreshAccount(s: System, account: string)
  {
    account != PENDING_ACCOUNT && forall n | n in s.devices :: n.account != account
  }

  function Next(h: Crypto, s: System, e: Event): (t: Option<System>)
  {
    match e
    case Tick(elapsed) => Some(s.(clock := s.clock + elapsed))
    case ReplayTtl(n) => if n in s.replay && s.replay[n] <= s.clock then Some(s.(replay := s.replay - {n})) else None
    case StartBootstrap(w, b) =>
      if w !in s.workers && MayBootstrap(h, b, s.clock) && !KnowsDevice(s, b.device) then Some(Goto(s, w, BootReserve(b, s.clock))) else None
    case StartEnroll(w, en, proof) =>
      if w !in s.workers && Name(en.account, en.target) !in s.devices then Some(Goto(s, w, EnrollIssuer(en, proof, s.clock))) else None
    case StartActivate(w, c) =>
      var n := Name(c.account, c.target);
      if w !in s.workers && n in s.devices && MayActivate(h, c, s.devices[n], s.clock)
      then Some(Goto(s, w, ActivateSwap(c, s.devices[n], s.clock))) else None
    case StartRevoke(w, c, proof) =>
      var n := Name(c.account, c.issuer);
      if w !in s.workers && n in s.devices then Some(Goto(s, w, RevokeTarget(c, proof, s.devices[n], s.clock))) else None
    case StartVerify(w, proof, operation) =>
      if w !in s.workers && ProofChecks(h, proof, operation, s.clock) then Some(Goto(s, w, ProofRead(proof, Answer(proof)))) else None
    case Proceed(w, account) =>
      if w in s.workers && FreshAccount(s, account) then Some(DoProceed(h, s, w, account)) else None
    case UpsertRefused(w) => if w in s.workers then Some(DoRefuse(s, w)) else None
    case Crash(w) => Some(Drop(s, w))
  }

  function Init(clock: int): (s: System)
  {
    System(map[], map[], map[], clock, map[], [], [])
  }

  function Run(h: Crypto, clock: int, events: seq<Event>): (s: Option<System>)
  {
    if events == [] then Some(Init(clock))
    else match Run(h, clock, events[..|events| - 1])
      case None => None
      case Some(s) => Next(h, s, events[|events| - 1])
  }
}

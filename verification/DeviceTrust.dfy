/**
 * The process-local device authority (backend/security/deviceTrust.ts): registration, revocation, signed proofs
 * and the replay table that is purged as it is used. Keyed hashing is a function of the signed claim.
 */
module DeviceTrust {
  import opened Common

  const MAX_PROOF_TTL: int := 60_000
  const MAX_SAFE_INTEGER: int := 0x1F_FFFF_FFFF_FFFF

  datatype Operation =
    | RelayConnect | RelaySubscribe | RelayMessage | RelaySignal | AttachmentCreate | AttachmentWrite
    | AttachmentRead | AttachmentDelete | PrivateNetworkRelay | BridgeAuthorize | DeviceControl

  datatype Lifecycle = Pending | Active | Revoked

  datatype Record = Record(
    account: string, device: string, identity: string, verificationKey: string, state: Lifecycle, epoch: int,
    createdAt: int, revokedAt: Option<int>, lastUpdate: int)

  datatype Registration = Registration(account: string, device: string, identity: string, verificationKey: string, epoch: int)

  datatype Claim = Claim(
    proofId: string, account: string, device: string, identity: string, operation: Operation, epoch: int, nonce: string,
    issuedAt: int, expiresAt: int)

  datatype Proof = Proof(claim: Claim, signature: string)

  datatype Expected = Expected(account: string, device: string, operation: Operation, nonce: string)

  datatype Host = Host(sign: Claim -> string, isNonce: string -> bool)

  datatype Plane = Plane(records: map<string, Record>, nonces: map<string, int>)

  function RecordKey(account: string, device: string): (key: string)
  {
    account + ":" + device
  }

  function NonceKey(c: Claim): (key: string)
  {
    c.proofId + ":" + c.nonce
  }

  predicate SafeInteger(n: int)
  {
    -MAX_SAFE_INTEGER <= n <= MAX_SAFE_INTEGER
  }

  function Registered(p: Plane, i: Registration, now: int): (r: Result<Record, ()>)
  {
    var key := RecordKey(i.account, i.device);
    if i.account == "" || i.device == "" || i.identity == "" || i.verificationKey == "" || !SafeInteger(i.epoch) || i.epoch < 0 then Err(())
    else if key !in p.records then Ok(Record(i.account, i.device, i.identity, i.verificationKey, Active, i.epoch, now, None, now))
    else
      var e := p.records[key];
      if e.state == Revoked || e.identity != i.identity || e.verificationKey != i.verificationKey || i.epoch < e.epoch then Err(())
      else Ok(Record(i.account, i.device, i.identity, i.verificationKey, Active, i.epoch, e.createdAt, None, now))
  }

  function RevokedRecord(p: Plane, account: string, device: string, epoch: int, now: int): (r: Result<Record, ()>)
  {
    var key := RecordKey(account, device);
    if key !in p.records || p.records[key].state != Active || !SafeInteger(epoch) || epoch <= p.records[key].epoch then Err(())
    else Ok(p.records[key].(state := Revoked, epoch := epoch, revokedAt := Some(now), lastUpdate := now))
  }

  function Issued(h: Host, p: Plane, account: string, device: string, op: Operation, nonce: string, ttl: int, proofId: string, now: int)
    : (r: Result<Proof, ()>)
  {
    var key := RecordKey(account, device);
    if key !in p.records || p.records[key].state != Active || !h.isNonce(nonce) || ttl < 1 || ttl > MAX_PROOF_TTL then Err(())
    else
      var c := Claim(proofId, account, device, p.records[key].identity, op, p.records[key].epoch, nonce, now, now + ttl);
      Ok(Proof(c, h.sign(c)))
  }

  /** What does not depend on the replay table: the claim, its signature, its time and the current record. */
  predicate Stands(h: Host, p: Plane, proof: Proof, e: Expected, now: int)
  {
    var c := proof.claim;
    var key := RecordKey(c.account, c.device);
    && c.account == e.account && c.device == e.device && c.operation == e.operation && c.nonce == e.nonce
    && c.expiresAt > now && c.issuedAt <= now && proof.signature == h.sign(c)
    && key in p.records && p.records[key].state == Active && p.records[key].epoch == c.epoch && p.records[key].identity == c.identity
  }

  function Unexpired(nonces: map<string, int>, now: int): (n: map<string, int>)
  {
    map key | key in nonces && nonces[key] > now :: nonces[key]
  }

  predicate Verifies(h: Host, p: Plane, proof: Proof, e: Expected, consume: bool, now: int)
  {
    Stands(h, p, proof, e, now) && (consume ==> NonceKey(proof.claim) !in Unexpired(p.nonces, now))
  }

  function AfterVerify(h: Host, p: Plane, proof: Proof, e: Expected, consume: bool, now: int): (n: Plane)
  {
    if !Stands(h, p, proof, e, now) then p
    else
      var kept := Unexpired(p.nonces, now);
      p.(nonces := if consume && Verifies(h, p, proof, e, consume, now) then kept[NonceKey(proof.claim) := proof.claim.expiresAt] else kept)
  }

  class DeviceTrustControlPlane {
    var records: map<string, Record>
    var nonces: map<string, int>

    ghost function View(): (p: Plane)
      reads this
    {
      Plane(records, nonces)
    }

    constructor ()
      ensures View() == Plane(map[], map[])
    {
      records := map[];
      nonces := map[];
    }

    method Register(i: Registration, now: int) returns (r: Result<Record, ()>)
      modifies this
      ensures r == Registered(old(View()), i, now)
      ensures View() == if r.Ok? then old(View()).(records := old(records)[RecordKey(i.account, i.device) := r.value]) else old(View())
    {
      if i.account == "" || i.device == "" || i.identity == "" || i.verificationKey == "" || !SafeInteger(i.epoch) || i.epoch < 0 {
        return Err(());
      }
      var key := RecordKey(i.account, i.device);
      var createdAt := now;
      if key in records {
        var e := records[key];
        if e.state == Revoked { return Err(()); }
        if e.identity != i.identity || e.verificationKey != i.verificationKey || i.epoch < e.epoch { return Err(()); }
        createdAt := e.createdAt;
      }
      var record := Record(i.account, i.device, i.identity, i.verificationKey, Active, i.epoch, createdAt, None, now);
      records := records[key := record];
      return Ok(record);
    }

    method Revoke(account: string, device: string, epoch: int, now: int) returns (r: Result<Record, ()>)
      modifies this
      ensures r == RevokedRecord(old(View()), account, device, epoch, now)
      ensures View() == if r.Ok? then old(View()).(records := old(records)[RecordKey(account, device) := r.value]) else old(View())
    {
      var key := RecordKey(account, device);
      if key !in records { return Err(()); }
      var record := records[key];
      if record.state != Active || !SafeInteger(epoch) || epoch <= record.epoch { return Err(()); }
      var next := record.(state := Revoked, epoch := epoch, revokedAt := Some(now), lastUpdate := now);
      records := records[key := next];
      return Ok(next);
    }

    /** Drops every nonce whose proof has expired, entry by entry. */
    method Purge(now: int)
      modifies this`nonces
      ensures nonces == Unexpired(old(nonces), now)
    {
      var todo := nonces.Keys;
      ghost var was := nonces;
      while todo != {}
        invariant todo <= nonces.Keys
        invariant forall key :: key in nonces <==> key in was && (key in todo || was[key] > now)
        invariant forall key | key in nonces :: nonces[key] == was[key]
        decreases todo
      {
        var key :| key in todo;
        if nonces[key] <= now { nonces := nonces - {key}; }
        todo := todo - {key};
      }
    }

    method Verify(h: Host, proof: Proof, e: Expected, consume: bool, now: int) returns (r: Result<Record, ()>)
      modifies this
      ensures r.Ok? <==> Verifies(h, old(View()), proof, e, consume, now)
      ensures r.Ok? ==> r.value == old(records)[RecordKey(proof.claim.account, proof.claim.device)]
      ensures View() == AfterVerify(h, old(View()), proof, e, consume, now)
    {
      var c := proof.claim;
      if c.account != e.account || c.device != e.device || c.operation != e.operation || c.nonce != e.nonce
         || c.expiresAt <= now || c.issuedAt > now || proof.signature != h.sign(c)
      {
        return Err(());
      }
      var key := RecordKey(c.account, c.device);
      if key !in records { return Err(()); }
      var record := records[key];
      if record.state != Active || record.epoch != c.epoch || record.identity != c.identity { return Err(()); }
      Purge(now);
      if consume && NonceKey(c) in nonces { return Err(()); }
      if consume { nonces := nonces[NonceKey(c) := c.expiresAt]; }
      return Ok(record);
    }
  }

  // ---------- runs ----------

  /** Each call reads the clock once; time never goes backwards. */
  datatype Event =
    | Register(elapsed: nat, input: Registration)
    | Revoke(elapsed: nat, account: string, device: string, epoch: int)
    | Verify(elapsed: nat, proof: Proof, expected: Expected, consume: bool)

  /** `consumed` lists the proofs consumed so far. */
  datatype Authority = Authority(plane: Plane, clock: int, consumed: seq<Proof>)

  function Step(h: Host, s: Authority, e: Event): (t: Authority)
  {
    var now := s.clock + e.elapsed;
    match e
    case Register(_, input) =>
      var r := Registered(s.plane, input, now);
      s.(clock := now, plane := if r.Ok? then s.plane.(records := s.plane.records[RecordKey(input.account, input.device) := r.value]) else s.plane)
    case Revoke(_, account, device, epoch) =>
      var r := RevokedRecord(s.plane, account, device, epoch, now);
      s.(clock := now, plane := if r.Ok? then s.plane.(records := s.plane.records[RecordKey(account, device) := r.value]) else s.plane)
    case Verify(_, proof, expected, consume) =>
      Authority(AfterVerify(h, s.plane, proof, expected, consume, now), now,
                if consume && Verifies(h, s.plane, proof, expected, consume, now) then s.consumed + [proof] else s.consumed)
  }

  function After(h: Host, s: Authority, events: seq<Event>): (t: Authority)
  {
    if events == [] then s else Step(h, After(h, s, events[..|events| - 1]), events[|events| - 1])
  }

  /** What may become of a device: state and epoch only move forward, each change of state raises the epoch, revocation is final. */
  predicate Onward(a: Record, b: Record)
  {
    && b.identity == a.identity && b.verificationKey == a.verificationKey && b.createdAt == a.createdAt
    && a.epoch <= b.epoch && (a.state != b.state ==> a.epoch < b.epoch && (a.state == Active ==> b.state == Revoked))
    && (a.state == Revoked ==> b == a)
  }

  lemma StepOnward(h: Host, s: Authority, e: Event, key: string)
    requires key in s.plane.records
    ensures key in Step(h, s, e).plane.records
    ensures s.plane.records[key].state != Pending ==> Onward(s.plane.records[key], Step(h, s, e).plane.records[key])
  {
    hide Stands, Verifies, Unexpired, RecordKey;
  }

  /** Over any run a registered device only moves forward. */
  lemma {:induction false} DevicesMoveForward(h: Host, s: Authority, events: seq<Event>, key: string)
    requires key in s.plane.records && s.plane.records[key].state != Pending
    ensures key in After(h, s, events).plane.records && Onward(s.plane.records[key], After(h, s, events).plane.records[key])
  {
    hide Step;
    if events != [] {
      DevicesMoveForward(h, s, events[..|events| - 1], key);
      StepOnward(h, After(h, s, events[..|events| - 1]), events[|events| - 1], key);
    }
  }

  /** After a revocation, or any other advance of the epoch, no earlier proof of the device verifies again. */
  lemma OldProofsNeverVerify(h: Host, s: Authority, events: seq<Event>, proof: Proof, e: Expected, consume: bool, now: int)
    requires var key := RecordKey(proof.claim.account, proof.claim.device);
      && key in s.plane.records && s.plane.records[key].state != Pending
      && (s.plane.records[key].state == Revoked || proof.claim.epoch < s.plane.records[key].epoch)
    ensures !Verifies(h, After(h, s, events).plane, proof, e, consume, now)
  {
    DevicesMoveForward(h, s, events, RecordKey(proof.claim.account, proof.claim.device));
  }

  /** Every consumed proof that could still verify is remembered until it expires; none has been consumed twice. */
  predicate Remembers(s: Authority)
  {
    && (forall i | 0 <= i < |s.consumed| :: s.consumed[i].claim.expiresAt > s.clock ==>
          NonceKey(s.consumed[i].claim) in s.plane.nonces
          && s.plane.nonces[NonceKey(s.consumed[i].claim)] == s.consumed[i].claim.expiresAt)
    && (forall i, j | 0 <= i < j < |s.consumed| :: s.consumed[i] != s.consumed[j])
  }

  lemma StepRemembers(h: Host, s: Authority, e: Event)
    requires Remembers(s)
    ensures Remembers(Step(h, s, e))
  {
    hide NonceKey, RecordKey, Registered, RevokedRecord;
  }

  /** A proof is consumed at most once in any run, although the replay table is purged as proofs expire. */
  lemma {:induction false} ConsumedOnce(h: Host, clock: int, events: seq<Event>, i: nat, j: nat)
    requires i < j < |After(h, Authority(Plane(map[], map[]), clock, []), events).consumed|
    ensures var s := After(h, Authority(Plane(map[], map[]), clock, []), events);
      Remembers(s) && s.consumed[i] != s.consumed[j]
  {
    AlwaysRemembers(h, clock, events);
  }

  lemma {:induction false} AlwaysRemembers(h: Host, clock: int, events: seq<Event>)
    ensures Remembers(After(h, Authority(Plane(map[], map[]), clock, []), events))
  {
    hide Step;
    if events != [] {
      AlwaysRemembers(h, clock, events[..|events| - 1]);
      StepRemembers(h, After(h, Authority(Plane(map[], map[]), clock, []), events[..|events| - 1]), events[|events| - 1]);
    }
  }

  /** An issued proof verifies for its own operation and nonce exactly while it has not expired, been consumed or been overtaken. */
  lemma IssuedVerifies(h: Host, p: Plane, account: string, device: string, op: Operation, nonce: string, ttl: int, proofId: string,
                       at: int, later: Plane, now: int)
    requires Issued(h, p, account, device, op, nonce, ttl, proofId, at).Ok? && at <= now
    ensures var proof := Issued(h, p, account, device, op, nonce, ttl, proofId, at).value;
      var key := RecordKey(account, device);
      Verifies(h, later, proof, Expected(account, device, op, nonce), true, now) <==>
        && now < at + ttl && NonceKey(proof.claim) !in Unexpired(later.nonces, now)
        && key in later.records && later.records[key].state == Active
        && later.records[key].epoch == p.records[key].epoch && later.records[key].identity == p.records[key].identity
  {
  }
}

/**
 * The durable device authority as the program runs it, call by call (backend/security/durableDeviceTrust.ts). Each
 * call without interleaving does exactly what its worker does in the step relation of DurableDevices, so what the
 * runs keep applies to these methods.
 */
module DurableDeviceService {
  import opened Common
  import opened DeviceTrust
  import opened DurableDevices

  const CALL_STEPS: nat := 9

  /** The store after at most `n` steps of worker 0, with nobody in between. */
  function Alone(h: Crypto, s: System, account: string, n: nat): (t: System)
    decreases n
  {
    if n == 0 || 0 !in s.workers then s else Alone(h, DoProceed(h, s, 0, account), account, n - 1)
  }

  /** The store with worker 0 at one stage and no other worker. */
  function At(v: System, k: Worker): (s: System)
  {
    v.(workers := map[0 := k])
  }

  predicate Still(v: System)
  {
    v.workers == map[]
  }

  lemma Stops(h: Crypto, v: System, account: string, n: nat)
    requires Still(v)
    ensures Alone(h, v, account, n) == v
  {
  }

  /** One step to a next stage, or to the end of the call. */
  lemma Takes(h: Crypto, v: System, k: Worker, account: string, n: nat, t: System)
    requires n > 0 && DoProceed(h, At(v, k), 0, account) == t
    ensures Alone(h, At(v, k), account, n) == Alone(h, t, account, n - 1)
  {
    hide DoProceed;
  }

  lemma DropsOut(v: System, k: Worker)
    requires Still(v)
    ensures Drop(At(v, k), 0) == v
    ensures forall j: Worker :: Goto(At(v, k), 0, j) == At(v, j)
  {
    assert forall j: Worker :: map[0 := k][0 := j] == map[0 := j];
    assert map[0 := k] - {0} == map[];
  }

  function Consumed(v: System, t: Token): (n: System)
  {
    v.(replay := v.replay[Name(t.id, t.device) := t.expiresAt], log := v.log + [Consumption(t, v.clock)])
  }

  predicate Consumable(v: System, t: Token)
  {
    t.expiresAt > v.clock && Name(t.id, t.device) !in v.replay
  }

  /** Checking and recording a token takes two steps, and then the goal decides. */
  lemma Consumes(h: Crypto, v: System, token: Token, goal: Goal, account: string, n: nat)
    requires Still(v) && n >= 2
    ensures Alone(h, At(v, TokenCheck(token, goal)), account, n) ==
      if Consumable(v, token) then Alone(h, Continue(At(Consumed(v, token), TokenInsert(token, goal)), 0, goal), account, n - 2) else v
  {
    hide Alone;
    var check, insert := TokenCheck(token, goal), TokenInsert(token, goal);
    DropsOut(v, check);
    DropsOut(v, insert);
    if token.expiresAt <= v.clock {
      Takes(h, v, check, account, n, v);
      Stops(h, v, account, n - 1);
    } else {
      Takes(h, v, check, account, n, At(v, insert));
      Takes(h, v, insert, account, n - 1, DoInsert(At(v, insert), 0, token, goal));
      Stops(h, v, account, n - 2);
    }
  }

  lemma ConsumesLast(h: Crypto, v: System, token: Token, account: string, n: nat)
    requires Still(v) && n >= 2
    ensures Alone(h, At(v, TokenCheck(token, Finish)), account, n) == if Consumable(v, token) then Consumed(v, token) else v
  {
    hide Alone;
    Consumes(h, v, token, Finish, account, n);
    DropsOut(Consumed(v, token), TokenInsert(token, Finish));
    Stops(h, Consumed(v, token), account, n - 2);
  }

  /** The conditional update takes one step. */
  lemma Swaps(h: Crypto, v: System, k: Worker, next: Record, token: Token, account: string, n: nat)
    requires Still(v) && n >= 3
    requires || (k.ActivateSwap? && next == ActivatedRecord(k.target, k.c.nextEpoch, k.at) && token == Token(k.c.id, k.target.device, k.c.expiresAt))
             || (k.RevokeSwap? && next == RevokedFrom(k.target, k.at) && token == Token(k.c.id, k.c.issuer, k.c.expiresAt))
    ensures Alone(h, At(v, k), account, n) ==
      if NameOf(k.target) in v.devices && v.devices[NameOf(k.target)].epoch == k.target.epoch
      then
        var u := v.(devices := v.devices[NameOf(k.target) := next]);
        if Consumable(u, token) then Consumed(u, token) else u
      else v
  {
    hide Alone, Consumable, Consumed;
    DropsOut(v, k);
    if NameOf(k.target) in v.devices && v.devices[NameOf(k.target)].epoch == k.target.epoch {
      var u := v.(devices := v.devices[NameOf(k.target) := next]);
      Takes(h, v, k, account, n, At(u, TokenCheck(token, Finish)));
      ConsumesLast(h, u, token, account, n - 1);
    } else {
      Takes(h, v, k, account, n, v);
      Stops(h, v, account, n - 1);
    }
  }

  /** Reserving an identifier and writing its first record take two steps. */
  lemma Reserves(h: Crypto, v: System, k: Worker, account: string, n: nat)
    requires Still(v) && n >= 2 && (k.BootReserve? || k.EnrollReserve?)
    ensures Alone(h, At(v, k), account, n) ==
      if k.BootReserve? then
        if k.b.device in v.registry then v
        else
          var u := v.(registry := v.registry[k.b.device := PENDING_ACCOUNT],
                      devices := v.devices[Name(account, k.b.device) := FirstRecord(k.b, account, k.at)]);
          Alone(h, At(u, BootBind(k.b, account)), account, n - 2)
      else
        if k.e.target in v.registry then v
        else
          var u := v.(registry := v.registry[k.e.target := k.e.account],
                      devices := v.devices[Name(k.e.account, k.e.target) := EnrolledRecord(k.e, k.at)]);
          Alone(h, At(u, TokenCheck(Token(k.e.id, k.e.issuer, k.e.expiresAt), Finish)), account, n - 2)
  {
    hide Alone;
    DropsOut(v, k);
    Stops(h, v, account, n - 1);
    if k.BootReserve? {
      if k.b.device in v.registry {
        Takes(h, v, k, account, n, v);
      } else {
        var u := v.(registry := v.registry[k.b.device := PENDING_ACCOUNT]);
        Takes(h, v, k, account, n, At(u, BootUpsert(k.b, k.at, account)));
        var w := u.(devices := u.devices[Name(account, k.b.device) := FirstRecord(k.b, account, k.at)]);
        DropsOut(u, BootUpsert(k.b, k.at, account));
        Takes(h, u, BootUpsert(k.b, k.at, account), account, n - 1, At(w, BootBind(k.b, account)));
      }
    } else {
      if k.e.target in v.registry {
        Takes(h, v, k, account, n, v);
      } else {
        var u := v.(registry := v.registry[k.e.target := k.e.account]);
        Takes(h, v, k, account, n, At(u, EnrollUpsert(k.e, k.at)));
        var w := u.(devices := u.devices[Name(k.e.account, k.e.target) := EnrolledRecord(k.e, k.at)]);
        DropsOut(u, EnrollUpsert(k.e, k.at));
        Takes(h, u, EnrollUpsert(k.e, k.at), account, n - 1, At(w, TokenCheck(Token(k.e.id, k.e.issuer, k.e.expiresAt), Finish)));
      }
    }
  }

  /** Binding the reservation takes one step. */
  lemma Binds(h: Crypto, v: System, b: Bootstrap, account: string, n: nat)
    requires Still(v) && n >= 3
    ensures Alone(h, At(v, BootBind(b, account)), account, n) ==
      if b.device in v.registry && v.registry[b.device] == PENDING_ACCOUNT
      then
        var u, token := v.(registry := v.registry[b.device := account]), Token(b.requestId, b.device, b.expiresAt);
        if Consumable(u, token) then Consumed(u, token) else u
      else v
  {
    hide Alone, Consumable, Consumed;
    DropsOut(v, BootBind(b, account));
    if b.device in v.registry && v.registry[b.device] == PENDING_ACCOUNT {
      var u, token := v.(registry := v.registry[b.device := account]), Token(b.requestId, b.device, b.expiresAt);
      Takes(h, v, BootBind(b, account), account, n, At(u, TokenCheck(token, Finish)));
      ConsumesLast(h, u, token, account, n - 1);
    } else {
      Takes(h, v, BootBind(b, account), account, n, v);
      Stops(h, v, account, n - 1);
    }
  }

  function ClaimToken(c: Claim): (t: Token)
  {
    Token(c.proofId, c.device, c.expiresAt)
  }

  /** Reading the record of a proof and consuming it take three steps. */
  lemma ReadsAndConsumes(h: Crypto, v: System, proof: Proof, goal: Goal, account: string, n: nat)
    requires Still(v) && n >= 3
    ensures Alone(h, At(v, ProofRead(proof, goal)), account, n) ==
      if ProofMatches(v, proof.claim) && Consumable(v, ClaimToken(proof.claim))
      then Alone(h, Continue(At(Consumed(v, ClaimToken(proof.claim)), TokenInsert(ClaimToken(proof.claim), goal)), 0, goal), account, n - 3)
      else v
  {
    hide Alone, Consumable, Consumed, Continue;
    var k := ProofRead(proof, goal);
    DropsOut(v, k);
    if ProofMatches(v, proof.claim) {
      Takes(h, v, k, account, n, At(v, TokenCheck(ClaimToken(proof.claim), goal)));
      Consumes(h, v, ClaimToken(proof.claim), goal, account, n - 1);
    } else {
      Takes(h, v, k, account, n, v);
      Stops(h, v, account, n - 1);
    }
  }

  class MongoDeviceTrustStore {
    var devices: map<Name, Record>
    var registry: map<string, string>
    var replay: map<Name, int>
    var clock: int
    ghost var log: seq<Consumption>
    ghost var answers: seq<Acceptance>

    ghost function View(): (s: System)
      reads this
    {
      System(devices, registry, replay, clock, map[], log, answers)
    }

    constructor (now: int)
      ensures View() == Init(now)
    {
      devices := map[];
      registry := map[];
      replay := map[];
      clock := now;
      log := [];
      answers := [];
    }

    /** Replaces the record; with an expected epoch, only one that still has it. */
    method Upsert(r: Record, expected: Option<int>) returns (ok: bool)
      modifies this`devices
      ensures ok <==> expected.None? || (NameOf(r) in old(devices) && old(devices)[NameOf(r)].epoch == expected.value)
      ensures devices == if ok then old(devices)[NameOf(r) := r] else old(devices)
    {
      ok := expected.None? || (NameOf(r) in devices && devices[NameOf(r)].epoch == expected.value);
      if ok { devices := devices[NameOf(r) := r]; }
    }

    /** Records a token once, and only before it expires. */
    method Consume(t: Token) returns (ok: bool)
      modifies this`replay, this`log
      ensures ok <==> Consumable(old(View()), t)
      ensures View() == if ok then Consumed(old(View()), t) else old(View())
    {
      ok := t.expiresAt > clock && Name(t.id, t.device) !in replay;
      if ok {
        replay := replay[Name(t.id, t.device) := t.expiresAt];
        log := log + [Consumption(t, clock)];
      }
    }

    method ReserveDeviceId(device: string, account: string) returns (ok: bool)
      modifies this`registry
      ensures ok <==> device !in old(registry)
      ensures registry == if ok then old(registry)[device := account] else old(registry)
    {
      ok := device !in registry;
      if ok { registry := registry[device := account]; }
    }

    method BindReservedDeviceId(device: string, account: string) returns (ok: bool)
      modifies this`registry
      ensures ok <==> device in old(registry) && old(registry)[device] == PENDING_ACCOUNT
      ensures registry == if ok then old(registry)[device := account] else old(registry)
    {
      ok := device in registry && registry[device] == PENDING_ACCOUNT;
      if ok { registry := registry[device := account]; }
    }

    /** A first device: reserve its identifier, write its record, bind the reservation, burn the request. */
    method Bootstrap(h: Crypto, b: DurableDevices.Bootstrap, account: string) returns (r: Result<Record, ()>)
      modifies this
      ensures View() ==
        if MayBootstrap(h, b, old(clock)) && !KnowsDevice(old(View()), b.device)
        then Alone(h, At(old(View()), BootReserve(b, old(clock))), account, CALL_STEPS) else old(View())
      ensures r.Ok? ==> r.value == FirstRecord(b, account, clock) && devices == old(devices)[NameOf(r.value) := r.value]
    {
      if !MayBootstrap(h, b, clock) || (exists n | n in devices :: n.device == b.device) { return Err(()); }
      hide Alone, MayBootstrap, At;
      r := ReserveAndWrite(h, b, account);
    }

    method ReserveAndWrite(h: Crypto, b: DurableDevices.Bootstrap, account: string) returns (r: Result<Record, ()>)
      modifies this
      ensures View() == Alone(h, At(old(View()), BootReserve(b, old(clock))), account, CALL_STEPS)
      ensures clock == old(clock)
      ensures r.Ok? ==> r.value == FirstRecord(b, account, clock) && devices == old(devices)[NameOf(r.value) := r.value]
    {
      Reserves(h, View(), BootReserve(b, clock), account, CALL_STEPS);
      hide Alone;
      var ok := ReserveDeviceId(b.device, PENDING_ACCOUNT);
      if !ok { return Err(()); }
      var record := FirstRecord(b, account, clock);
      ok := Upsert(record, None);
      ok := BindBootstrap(h, b, account);
      return if ok then Ok(record) else Err(());
    }

    /** The end of a bootstrap: the reservation is bound without being released, then the request is burnt. */
    method BindBootstrap(h: Crypto, b: DurableDevices.Bootstrap, account: string) returns (ok: bool)
      modifies this
      ensures View() == Alone(h, At(old(View()), BootBind(b, account)), account, CALL_STEPS - 2)
      ensures devices == old(devices) && clock == old(clock)
    {
      Binds(h, View(), b, account, CALL_STEPS - 2);
      hide Alone, Consumable, Consumed;
      ok := BindReservedDeviceId(b.device, account);
      if !ok { return; }
      var token := Token(b.requestId, b.device, b.expiresAt);
      KeepsDevices(View(), token);
      ok := Consume(token);
    }

    /** The record a proof stands for, once: what every request that carries a proof goes through. */
    method Verify(h: Crypto, proof: Proof, operation: Operation) returns (r: Result<Record, ()>)
      modifies this
      ensures View() ==
        if ProofChecks(h, proof, operation, old(clock))
        then Alone(h, At(old(View()), ProofRead(proof, Answer(proof))), "", CALL_STEPS) else old(View())
      ensures r.Ok? ==>
        && ProofChecks(h, proof, operation, clock) && ProofMatches(old(View()), proof.claim)
        && Name(proof.claim.proofId, proof.claim.device) !in old(replay)
        && r.value == old(devices)[Name(proof.claim.account, proof.claim.device)]
      ensures r.Ok? ==> Name(proof.claim.proofId, proof.claim.device) in replay
    {
      if !ProofChecks(h, proof, operation, clock) { return Err(()); }
      ghost var v := View();
      ReadsAndConsumes(h, v, proof, Answer(proof), "", CALL_STEPS);
      DropsOut(Consumed(v, ClaimToken(proof.claim)), TokenInsert(ClaimToken(proof.claim), Answer(proof)));
      r := CheckProof(proof);
      if r.Err? { return; }
      answers := answers + [Acceptance(proof, clock)];
      Stops(h, View(), "", CALL_STEPS - 3);
    }

    /** The part of a verification that reads the record and consumes the proof. */
    method CheckProof(proof: Proof) returns (r: Result<Record, ()>)
      modifies this`replay, this`log
      ensures r.Ok? <==> ProofMatches(old(View()), proof.claim) && Consumable(old(View()), ClaimToken(proof.claim))
      ensures r.Ok? ==> r.value == devices[Name(proof.claim.account, proof.claim.device)]
      ensures View() == if r.Ok? then Consumed(old(View()), ClaimToken(proof.claim)) else old(View())
    {
      var c := proof.claim;
      var n := Name(c.account, c.device);
      if n !in devices || devices[n].state != Active || devices[n].identity != c.identity || devices[n].epoch != c.epoch { return Err(()); }
      var record := devices[n];
      var ok := Consume(Token(c.proofId, c.device, c.expiresAt));
      return if ok then Ok(record) else Err(());
    }

    /** The device confirms itself; its epoch advances once. A used event leaves it active and reports an error. */
    method Activate(h: Crypto, c: Control) returns (r: Result<Record, ()>)
      modifies this
      ensures var n := Name(c.account, c.target);
        View() ==
          if n in old(devices) && MayActivate(h, c, old(devices)[n], old(clock))
          then Alone(h, At(old(View()), ActivateSwap(c, old(devices)[n], old(clock))), "", CALL_STEPS) else old(View())
      ensures r.Ok? ==>
        && Name(c.account, c.target) in old(devices) && NameOf(r.value) in devices && devices[NameOf(r.value)] == r.value
        && r.value.state == Active && r.value.epoch == old(devices)[Name(c.account, c.target)].epoch + 1
    {
      var n := Name(c.account, c.target);
      if n !in devices { return Err(()); }
      var target := devices[n];
      if !MayActivate(h, c, target, clock) { return Err(()); }
      var next := ActivatedRecord(target, c.nextEpoch, clock);
      var token := Token(c.id, target.device, c.expiresAt);
      Swaps(h, View(), ActivateSwap(c, target, clock), next, token, "", CALL_STEPS);
      hide Alone, Consumable, Consumed;
      var ok := Upsert(next, Some(target.epoch));
      if !ok { return Err(()); }
      ghost var u := View();
      ok := Consume(token);
      KeepsDevices(u, token);
      return if ok then Ok(next) else Err(());
    }

    /** An active device revokes another one of its account. */
    method Update(h: Crypto, c: Control, proof: Proof) returns (r: Result<Record, ()>)
      modifies this
      ensures var i := Name(c.account, c.issuer);
        View() == if i in old(devices) then Alone(h, At(old(View()), RevokeTarget(c, proof, old(devices)[i], old(clock))), "", CALL_STEPS)
                  else old(View())
      ensures r.Ok? ==> NameOf(r.value) in devices && devices[NameOf(r.value)] == r.value && r.value.state == Revoked
    {
      var i, n := Name(c.account, c.issuer), Name(c.account, c.target);
      ghost var v := View();
      if i !in devices { return Err(()); }
      var issuer := devices[i];
      ghost var k := RevokeTarget(c, proof, issuer, clock);
      DropsOut(v, k);
      if n !in devices || !MayRevoke(h, c, issuer, devices[n], clock) || !ProofChecks(h, proof, DeviceControl, clock) {
        Takes(h, v, k, "", CALL_STEPS, v);
        Stops(h, v, "", CALL_STEPS - 1);
        return Err(());
      }
      var target := devices[n];
      ghost var goal := RevokeWith(c, proof, target, clock);
      Takes(h, v, k, "", CALL_STEPS, At(v, ProofRead(proof, goal)));
      ReadsAndConsumes(h, v, proof, goal, "", CALL_STEPS - 1);
      hide Alone, DoProceed, MayRevoke, ProofChecks;
      var verified := CheckProof(proof);
      if verified.Err? { return Err(()); }
      DropsOut(View(), TokenInsert(ClaimToken(proof.claim), goal));
      if proof.claim.account != c.account || proof.claim.device != c.issuer || proof.claim.epoch != c.previousEpoch {
        Stops(h, View(), "", CALL_STEPS - 4);
        return Err(());
      }
      r := Replace(h, c, target);
    }

    /** The end of a revocation: the conditional update, then the event is burnt. */
    method Replace(h: Crypto, c: Control, target: Record) returns (r: Result<Record, ()>)
      modifies this
      ensures View() == Alone(h, At(old(View()), RevokeSwap(c, target, old(clock))), "", CALL_STEPS - 4)
      ensures r.Ok? ==> NameOf(r.value) in devices && devices[NameOf(r.value)] == r.value && r.value.state == Revoked
    {
      var next := RevokedFrom(target, clock);
      var token := Token(c.id, c.issuer, c.expiresAt);
      Swaps(h, View(), RevokeSwap(c, target, clock), next, token, "", CALL_STEPS - 4);
      hide Alone, Consumable, Consumed;
      var ok := Upsert(next, Some(target.epoch));
      if !ok { return Err(()); }
      ghost var u := View();
      ok := Consume(token);
      KeepsDevices(u, token);
      return if ok then Ok(next) else Err(());
    }

    /** An active device enrolls another one as pending. */
    method Enroll(h: Crypto, e: Enrollment, proof: Proof) returns (r: Result<Record, ()>)
      modifies this
      ensures View() ==
        if Name(e.account, e.target) !in old(devices)
        then Alone(h, At(old(View()), EnrollIssuer(e, proof, old(clock))), "", CALL_STEPS) else old(View())
      ensures r.Ok? ==> r.value == EnrolledRecord(e, clock) && devices == old(devices)[NameOf(r.value) := r.value]
    {
      var i := Name(e.account, e.issuer);
      ghost var v := View();
      if Name(e.account, e.target) in devices { return Err(()); }
      ghost var k := EnrollIssuer(e, proof, clock);
      DropsOut(v, k);
      if i !in devices || !MayEnroll(h, e, devices[i], clock) || !ProofChecks(h, proof, DeviceControl, clock) {
        Takes(h, v, k, "", CALL_STEPS, v);
        Stops(h, v, "", CALL_STEPS - 1);
        return Err(());
      }
      ghost var goal := EnrollWith(e, proof, clock);
      Takes(h, v, k, "", CALL_STEPS, At(v, ProofRead(proof, goal)));
      ReadsAndConsumes(h, v, proof, goal, "", CALL_STEPS - 1);
      hide Alone, DoProceed, MayEnroll, ProofChecks;
      var verified := CheckProof(proof);
      if verified.Err? { return Err(()); }
      DropsOut(View(), TokenInsert(ClaimToken(proof.claim), goal));
      if proof.claim.account != e.account || proof.claim.device != e.issuer || proof.claim.identity != e.issuerIdentity
         || proof.claim.epoch != e.issuerEpoch
      {
        Stops(h, View(), "", CALL_STEPS - 4);
        return Err(());
      }
      r := AddPending(h, e);
    }

    /** The end of an enrollment: reserve the identifier, write the pending record, burn the event. */
    method AddPending(h: Crypto, e: Enrollment) returns (r: Result<Record, ()>)
      modifies this
      ensures View() == Alone(h, At(old(View()), EnrollReserve(e, old(clock))), "", CALL_STEPS - 4)
      ensures r.Ok? ==> r.value == EnrolledRecord(e, clock) && devices == old(devices)[NameOf(r.value) := r.value]
    {
      Reserves(h, View(), EnrollReserve(e, clock), "", CALL_STEPS - 4);
      hide Alone, Consumable, Consumed;
      var ok := ReserveDeviceId(e.target, e.account);
      if !ok { return Err(()); }
      var record := EnrolledRecord(e, clock);
      ok := Upsert(record, None);
      var token := Token(e.id, e.issuer, e.expiresAt);
      ConsumesLast(h, View(), token, "", CALL_STEPS - 6);
      ghost var u := View();
      ok := Consume(token);
      KeepsDevices(u, token);
      return if ok then Ok(record) else Err(());
    }
  }

  lemma KeepsDevices(v: System, t: Token)
    ensures Consumed(v, t).devices == v.devices && Consumed(v, t).clock == v.clock
  {
  }
}

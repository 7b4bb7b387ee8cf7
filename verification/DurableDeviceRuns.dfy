/** What holds over every run of the durable device authority. */
module DurableDeviceRuns {
  import opened Common
  import opened DeviceTrust
  import opened DurableDevices

  function Rank(s: Lifecycle): (rank: nat)
  {
    match s
    case Pending => 0
    case Active => 1
    case Revoked => 2
  }

  /** A device moves pending to active to revoked only, its epoch rising by exactly one at each change and at no other time. */
  predicate Forward(a: Record, b: Record)
  {
    && b.account == a.account && b.device == a.device && b.identity == a.identity && b.verificationKey == a.verificationKey
    && b.createdAt == a.createdAt
    && Rank(a.state) <= Rank(b.state) && b.epoch - a.epoch == Rank(b.state) - Rank(a.state)
    && (b.epoch == a.epoch ==> b == a)
  }

  lemma ForwardTwice(a: Record, b: Record, c: Record)
    requires Forward(a, b) && Forward(b, c)
    ensures Forward(a, c)
  {
  }

  // ---------- the invariant ----------

  /** The identifier a worker has reserved and not yet used. */
  function Reserving(k: Worker): (d: Option<string>)
  {
    match k
    case BootUpsert(b, _, _) => Some(b.device)
    case EnrollUpsert(e, _) => Some(e.target)
    case _ => None
  }

  function GoalTarget(g: Goal): (r: Option<Record>)
  {
    if g.RevokeWith? then Some(g.target) else None
  }

  /** The record a worker read and means to replace. */
  function Target(k: Worker): (r: Option<Record>)
  {
    match k
    case ActivateSwap(_, target, _) => Some(target)
    case RevokeSwap(_, target, _) => Some(target)
    case ProofRead(_, goal) => GoalTarget(goal)
    case TokenCheck(_, goal) => GoalTarget(goal)
    case TokenInsert(_, goal) => GoalTarget(goal)
    case _ => None
  }

  predicate WorkerOk(devices: map<Name, Record>, k: Worker)
  {
    && (k.ActivateSwap? ==> k.target.state == Pending && k.c.nextEpoch == k.target.epoch + 1)
    && (Target(k).Some? ==>
          && NameOf(Target(k).value) in devices && Forward(Target(k).value, devices[NameOf(Target(k).value)])
          && (k.ActivateSwap? || Target(k).value.state == Active))
  }

  predicate NamesOk(s: System)
  {
    && (forall n | n in s.devices :: NameOf(s.devices[n]) == n && n.device in s.registry)
    && (forall n, m | n in s.devices && m in s.devices && n.device == m.device :: n == m)
  }

  predicate ReservedOk(s: System, w: nat)
    requires w in s.workers
  {
    Reserving(s.workers[w]).Some? ==>
      var d := Reserving(s.workers[w]).value;
      && d in s.registry && (forall n | n in s.devices :: n.device != d)
      && (forall v | v in s.workers && v != w :: Reserving(s.workers[v]) != Some(d))
  }

  predicate Inv(s: System)
  {
    && NamesOk(s)
    && (forall w | w in s.workers :: ReservedOk(s, w))
    && (forall w | w in s.workers :: WorkerOk(s.devices, s.workers[w]))
  }

  predicate OthersStay(s: System, t: System, w: nat)
  {
    forall v | v in t.workers && v != w :: v in s.workers && s.workers[v] == t.workers[v]
  }

  /** A step that leaves records and reservations alone. */
  lemma QuietKeeps(s: System, t: System, w: nat)
    requires Inv(s) && t.devices == s.devices && t.registry.Keys == s.registry.Keys && OthersStay(s, t, w)
    requires w in t.workers ==> Reserving(t.workers[w]).None? && WorkerOk(t.devices, t.workers[w])
    ensures Inv(t)
  {
    hide WorkerOk, Reserving;
    forall v | v in t.workers ensures ReservedOk(t, v) && WorkerOk(t.devices, t.workers[v]) {
      if v != w { assert ReservedOk(s, v); }
    }
    assert forall n | n in t.devices :: n.device in s.registry.Keys;
  }

  lemma ReserveKeeps(s: System, t: System, w: nat, d: string)
    requires Inv(s) && t.devices == s.devices && d !in s.registry && t.registry.Keys == s.registry.Keys + {d} && OthersStay(s, t, w)
    requires w in t.workers && Reserving(t.workers[w]) == Some(d) && WorkerOk(t.devices, t.workers[w])
    ensures Inv(t)
  {
    hide WorkerOk, Reserving;
    forall v | v in t.workers ensures ReservedOk(t, v) && WorkerOk(t.devices, t.workers[v]) {
      if v != w { assert ReservedOk(s, v); }
    }
    assert forall n | n in t.devices :: n.device in s.registry.Keys;
  }

  /** A record that is new or moves forward keeps what every other worker has read. */
  lemma WorkerStays(devices: map<Name, Record>, n: Name, r: Record, k: Worker)
    requires WorkerOk(devices, k) && (n in devices ==> Forward(devices[n], r))
    requires n in devices || (Target(k).Some? ==> NameOf(Target(k).value) != n)
    ensures WorkerOk(devices[n := r], k)
  {
    hide Forward, Target;
    if Target(k).Some? && NameOf(Target(k).value) == n { ForwardTwice(Target(k).value, devices[n], r); }
  }

  lemma TargetKnown(devices: map<Name, Record>, k: Worker)
    requires WorkerOk(devices, k) && Target(k).Some?
    ensures NameOf(Target(k).value) in devices
  {
  }

  lemma NamesStay(s: System, t: System, r: Record)
    requires NamesOk(s) && t.devices == s.devices[NameOf(r) := r] && t.registry == s.registry && r.device in s.registry
    requires NameOf(r) in s.devices || forall n | n in s.devices :: n.device != r.device
    ensures NamesOk(t)
  {
  }

  /** A reserved identifier becomes a record, the first with that identifier. */
  lemma UpsertKeeps(s: System, t: System, w: nat, r: Record)
    requires Inv(s) && w in s.workers && Reserving(s.workers[w]) == Some(r.device)
    requires t.devices == s.devices[NameOf(r) := r] && t.registry == s.registry && OthersStay(s, t, w)
    requires w in t.workers && Reserving(t.workers[w]).None? && Target(t.workers[w]).None? && !t.workers[w].ActivateSwap?
    ensures Inv(t) && NameOf(r) !in s.devices
  {
    hide Reserving, NamesOk, WorkerOk, Target;
    assert ReservedOk(s, w);
    NamesStay(s, t, r);
    forall v | v in t.workers ensures ReservedOk(t, v) {
      if v != w { assert ReservedOk(s, v); }
    }
    forall v | v in t.workers ensures WorkerOk(t.devices, t.workers[v]) {
      if v != w {
        if Target(s.workers[v]).Some? { TargetKnown(s.devices, s.workers[v]); }
        WorkerStays(s.devices, NameOf(r), r, s.workers[v]);
      } else {
        NoTarget(t.devices, t.workers[w]);
      }
    }
  }

  lemma NoTarget(devices: map<Name, Record>, k: Worker)
    requires Target(k).None? && !k.ActivateSwap?
    ensures WorkerOk(devices, k)
  {
  }

  lemma SwapKeeps(s: System, t: System, w: nat, next: Record)
    requires Inv(s) && NameOf(next) in s.devices && Forward(s.devices[NameOf(next)], next)
    requires t.devices == s.devices[NameOf(next) := next] && t.registry == s.registry && OthersStay(s, t, w)
    requires w in t.workers && Reserving(t.workers[w]).None? && Target(t.workers[w]).None? && !t.workers[w].ActivateSwap?
    ensures Inv(t)
  {
    hide Reserving, Forward, WorkerOk, Target;
    assert next.device in s.registry by { assert NameOf(next).device in s.registry; }
    NamesStay(s, t, next);
    hide NamesOk;
    forall v | v in t.workers ensures ReservedOk(t, v) {
      if v != w { assert ReservedOk(s, v); }
    }
    forall v | v in t.workers ensures WorkerOk(t.devices, t.workers[v]) {
      if v != w { WorkerStays(s.devices, NameOf(next), next, s.workers[v]); } else { NoTarget(t.devices, t.workers[w]); }
    }
  }

  /** Giving a reservation back, by the only worker that holds it. */
  lemma RefuseKeeps(s: System, w: nat)
    requires Inv(s) && w in s.workers
    ensures Inv(DoRefuse(s, w))
  {
    var t := DoRefuse(s, w);
    if Reserving(s.workers[w]).Some? {
      assert ReservedOk(s, w);
      ReleaseKeeps(s, t, w, Reserving(s.workers[w]).value);
    }
  }

  lemma ReleaseKeeps(s: System, t: System, w: nat, d: string)
    requires Inv(s) && w in s.workers && Reserving(s.workers[w]) == Some(d) && w !in t.workers && OthersStay(s, t, w)
    requires t.devices == s.devices && s.registry.Keys - {d} <= t.registry.Keys
    ensures Inv(t)
  {
    hide WorkerOk, Reserving;
    assert ReservedOk(s, w);
    assert NamesOk(t) by {
      forall n | n in t.devices ensures n.device in t.registry { assert n.device in s.registry.Keys - {d}; }
    }
    hide NamesOk;
    forall v | v in t.workers ensures ReservedOk(t, v) && WorkerOk(t.devices, t.workers[v]) {
      assert ReservedOk(s, v);
      if Reserving(s.workers[v]).Some? { assert Reserving(s.workers[v]).value in s.registry.Keys - {d}; }
    }
  }

  lemma SwappedKeeps(s: System, w: nat, target: Record, next: Record, token: Token)
    requires Inv(s) && w in s.workers && NameOf(target) in s.devices && Forward(target, s.devices[NameOf(target)])
    requires Forward(target, next)
    ensures Inv(Swapped(s, w, target, next, token))
  {
    hide Inv, WorkerOk;
    var t := Swapped(s, w, target, next, token);
    if s.devices[NameOf(target)].epoch == target.epoch {
      assert s.devices[NameOf(target)] == target;
      SwapKeeps(s, t, w, next);
    } else {
      QuietKeeps(s, t, w);
    }
  }

  lemma RegistryKeeps(s: System, w: nat, account: string)
    requires Inv(s) && w in s.workers
    requires var k := s.workers[w]; k.BootReserve? || k.BootUpsert? || k.BootBind? || k.EnrollReserve? || k.EnrollUpsert?
    ensures Inv(DoRegistry(s, w, s.workers[w], account))
  {
    hide Inv, Forward;
    var t := DoRegistry(s, w, s.workers[w], account);
    match s.workers[w] {
      case BootReserve(b, at) => if b.device in s.registry { QuietKeeps(s, t, w); } else { ReserveKeeps(s, t, w, b.device); }
      case BootUpsert(b, at, a) => UpsertKeeps(s, t, w, FirstRecord(b, a, at));
      case BootBind(b, a) => QuietKeeps(s, t, w);
      case EnrollReserve(e, at) => if e.target in s.registry { QuietKeeps(s, t, w); } else { ReserveKeeps(s, t, w, e.target); }
      case EnrollUpsert(e, at) => UpsertKeeps(s, t, w, EnrolledRecord(e, at));
    }
  }

  predicate Quiet(s: System, t: System, w: nat)
  {
    && t.devices == s.devices && t.registry == s.registry && OthersStay(s, t, w)
    && (w in t.workers ==> Reserving(t.workers[w]).None? && WorkerOk(t.devices, t.workers[w]))
  }

  /** The stages that read and consume. */
  lemma ReadsAreQuiet(h: Crypto, s: System, w: nat, account: string)
    requires w in s.workers && WorkerOk(s.devices, s.workers[w])
    requires var k := s.workers[w]; k.EnrollIssuer? || k.ProofRead? || k.TokenCheck?
    ensures Quiet(s, DoProceed(h, s, w, account), w)
  {
    hide MayEnroll, ProofChecks, ProofMatches, Forward;
  }

  lemma InsertIsQuiet(s: System, w: nat, token: Token, goal: Goal)
    requires w in s.workers && s.workers[w] == TokenInsert(token, goal) && WorkerOk(s.devices, s.workers[w])
    ensures Quiet(s, DoInsert(s, w, token, goal), w)
  {
    hide Forward;
  }

  lemma ProceedKeeps(h: Crypto, s: System, w: nat, account: string)
    requires Inv(s) && w in s.workers
    ensures Inv(DoProceed(h, s, w, account))
  {
    hide NamesOk, ReservedOk, DoRegistry, Swapped, DoInsert;
    assert WorkerOk(s.devices, s.workers[w]);
    var t := DoProceed(h, s, w, account);
    match s.workers[w] {
      case ActivateSwap(c, target, at) =>
        hide Inv;
        SwappedKeeps(s, w, target, ActivatedRecord(target, c.nextEpoch, at), Token(c.id, target.device, c.expiresAt));
      case RevokeSwap(c, target, at) =>
        hide Inv;
        SwappedKeeps(s, w, target, RevokedFrom(target, at), Token(c.id, c.issuer, c.expiresAt));
      case EnrollIssuer(_, _, _) => hide Inv, DoProceed, WorkerOk; ReadsAreQuiet(h, s, w, account); QuietKeeps(s, t, w);
      case ProofRead(_, _) => hide Inv, DoProceed, WorkerOk; ReadsAreQuiet(h, s, w, account); QuietKeeps(s, t, w);
      case TokenCheck(_, _) => hide Inv, DoProceed, WorkerOk; ReadsAreQuiet(h, s, w, account); QuietKeeps(s, t, w);
      case RevokeTarget(_, _, _, _) => TargetRead(h, s, w, account); hide Inv; QuietKeeps(s, t, w);
      case TokenInsert(token, goal) => hide Inv; InsertIsQuiet(s, w, token, goal); QuietKeeps(s, t, w);
      case _ => hide Inv; RegistryKeeps(s, w, account);
    }
  }

  lemma TargetRead(h: Crypto, s: System, w: nat, account: string)
    requires Inv(s) && w in s.workers && s.workers[w].RevokeTarget?
    ensures var t := DoProceed(h, s, w, account); w in t.workers ==> WorkerOk(t.devices, t.workers[w])
  {
    hide ReservedOk, ProofChecks;
  }

  lemma ActivateRead(h: Crypto, s: System, e: DurableDevices.Event)
    requires Inv(s) && e.StartActivate? && Next(h, s, e).Some?
    ensures WorkerOk(s.devices, Next(h, s, e).value.workers[e.w])
  {
    hide ReservedOk;
  }

  lemma StillKeeps(s: System, t: System)
    requires Inv(s) && t.devices == s.devices && t.registry == s.registry && t.workers == s.workers
    ensures Inv(t)
  {
    hide WorkerOk;
    forall v | v in t.workers ensures ReservedOk(t, v) { assert ReservedOk(s, v); }
  }

  lemma InvNext(h: Crypto, s: System, e: DurableDevices.Event)
    requires Inv(s) && Next(h, s, e).Some?
    ensures Inv(Next(h, s, e).value)
  {
    hide Inv, DoProceed, DoRefuse, MayBootstrap, MayActivate, ProofChecks, KnowsDevice, FreshAccount;
    var t := Next(h, s, e).value;
    match e {
      case Tick(_) => StillKeeps(s, t);
      case ReplayTtl(_) => StillKeeps(s, t);
      case StartBootstrap(w, _) => QuietKeeps(s, t, w);
      case StartEnroll(w, _, _) => QuietKeeps(s, t, w);
      case StartActivate(w, _) => ActivateRead(h, s, e); QuietKeeps(s, t, w);
      case StartRevoke(w, _, _) => QuietKeeps(s, t, w);
      case StartVerify(w, _, _) => QuietKeeps(s, t, w);
      case Proceed(w, account) => ProceedKeeps(h, s, w, account);
      case UpsertRefused(w) => RefuseKeeps(s, w);
      case Crash(w) => QuietKeeps(s, t, w);
    }
  }

  lemma {:induction false} InvRun(h: Crypto, clock: int, events: seq<DurableDevices.Event>)
    requires Run(h, clock, events).Some?
    ensures Inv(Run(h, clock, events).value)
  {
    hide Next;
    if events != [] {
      InvRun(h, clock, events[..|events| - 1]);
      InvNext(h, Run(h, clock, events[..|events| - 1]).value, events[|events| - 1]);
    }
  }

  // ---------- devices ----------

  lemma SwappedForward(s: System, w: nat, target: Record, next: Record, token: Token, n: Name)
    requires Inv(s) && NameOf(target) in s.devices && Forward(target, s.devices[NameOf(target)]) && Forward(target, next)
    requires n in s.devices
    ensures n in Swapped(s, w, target, next, token).devices && Forward(s.devices[n], Swapped(s, w, target, next, token).devices[n])
  {
    hide NamesOk, ReservedOk, WorkerOk;
  }

  lemma RegistryForward(s: System, w: nat, account: string, n: Name)
    requires Inv(s) && w in s.workers && n in s.devices
    requires var k := s.workers[w]; k.BootReserve? || k.BootUpsert? || k.BootBind? || k.EnrollReserve? || k.EnrollUpsert?
    ensures var t := DoRegistry(s, w, s.workers[w], account); n in t.devices && t.devices[n] == s.devices[n]
  {
    hide NamesOk, WorkerOk;
    assert ReservedOk(s, w);
  }

  lemma ReadsForward(h: Crypto, s: System, w: nat, account: string)
    requires w in s.workers
    requires var k := s.workers[w]; k.EnrollIssuer? || k.RevokeTarget? || k.ProofRead? || k.TokenCheck? || k.TokenInsert?
    ensures DoProceed(h, s, w, account).devices == s.devices
  {
    hide MayEnroll, MayRevoke, ProofChecks, ProofMatches;
  }

  lemma ProceedForward(h: Crypto, s: System, w: nat, account: string, n: Name)
    requires Inv(s) && w in s.workers && n in s.devices
    ensures var t := DoProceed(h, s, w, account); n in t.devices && Forward(s.devices[n], t.devices[n])
  {
    hide NamesOk, ReservedOk, DoRegistry, Swapped, DoInsert;
    assert WorkerOk(s.devices, s.workers[w]);
    ForwardSelf(s.devices[n]);
    match s.workers[w] {
      case ActivateSwap(c, target, at) =>
        hide Inv;
        SwappedForward(s, w, target, ActivatedRecord(target, c.nextEpoch, at), Token(c.id, target.device, c.expiresAt), n);
      case RevokeSwap(c, target, at) =>
        hide Inv;
        SwappedForward(s, w, target, RevokedFrom(target, at), Token(c.id, c.issuer, c.expiresAt), n);
      case BootReserve(_, _) => hide Inv, Forward; RegistryForward(s, w, account, n);
      case BootUpsert(_, _, _) => hide Inv, Forward; RegistryForward(s, w, account, n);
      case BootBind(_, _) => hide Inv, Forward; RegistryForward(s, w, account, n);
      case EnrollReserve(_, _) => hide Inv, Forward; RegistryForward(s, w, account, n);
      case EnrollUpsert(_, _) => hide Inv, Forward; RegistryForward(s, w, account, n);
      case _ => hide Inv, Forward, DoProceed; ReadsForward(h, s, w, account);
    }
  }

  /** One step takes a device nowhere or one stage further. */
  lemma DeviceStep(h: Crypto, s: System, e: DurableDevices.Event, n: Name)
    requires Inv(s) && Next(h, s, e).Some? && n in s.devices
    ensures n in Next(h, s, e).value.devices && Forward(s.devices[n], Next(h, s, e).value.devices[n])
  {
    hide Inv, DoProceed, Forward;
    ForwardSelf(s.devices[n]);
    if e.Proceed? { ProceedForward(h, s, e.w, e.account, n); }
  }

  lemma RunPrefix(h: Crypto, clock: int, events: seq<DurableDevices.Event>, n: nat)
    requires n <= |events| && Run(h, clock, events).Some?
    ensures Run(h, clock, events[..n]).Some?
    decreases |events| - n
  {
    hide Next;
    if n < |events| {
      RunPrefix(h, clock, events, n + 1);
      assert events[..n + 1][..n] == events[..n];
    } else {
      assert events[..n] == events;
    }
  }

  /**
   * Between any two moments of any run a device has only moved forward: pending, active, revoked, and its epoch has
   * risen by exactly the number of changes.
   */
  lemma {:induction false} DevicesMoveForward(h: Crypto, clock: int, events: seq<DurableDevices.Event>, i: nat, j: nat, n: Name)
    requires i <= j <= |events| && Run(h, clock, events).Some?
    ensures Run(h, clock, events[..i]).Some? && Run(h, clock, events[..j]).Some?
    ensures var s, t := Run(h, clock, events[..i]).value, Run(h, clock, events[..j]).value;
      n in s.devices ==> n in t.devices && Forward(s.devices[n], t.devices[n])
    decreases j
  {
    hide Next, Inv, Forward;
    RunPrefix(h, clock, events, i);
    RunPrefix(h, clock, events, j);
    var s := Run(h, clock, events[..i]).value;
    if n in s.devices {
      if i < j {
        DevicesMoveForward(h, clock, events, i, j - 1, n);
        InvRun(h, clock, events[..j - 1]);
        assert events[..j][..j - 1] == events[..j - 1];
        var u := Run(h, clock, events[..j - 1]).value;
        DeviceStep(h, u, events[j - 1], n);
        ForwardTwice(s.devices[n], u.devices[n], Run(h, clock, events[..j]).value.devices[n]);
      } else {
        ForwardSelf(s.devices[n]);
      }
    }
  }

  lemma ForwardSelf(r: Record)
    ensures Forward(r, r)
  {
  }

  /** A device identifier names at most one record, whatever bootstraps and enrollments race for it. */
  lemma OneRecordPerDevice(h: Crypto, clock: int, events: seq<DurableDevices.Event>, n: Name, m: Name)
    requires Run(h, clock, events).Some?
    requires n in Run(h, clock, events).value.devices && m in Run(h, clock, events).value.devices && n.device == m.device
    ensures n == m
  {
    hide Next;
    InvRun(h, clock, events);
  }

  /** Once a device is revoked, or its epoch has passed that of a proof, the proof is refused at every later read. */
  lemma OldProofsNeverPass(h: Crypto, clock: int, events: seq<DurableDevices.Event>, i: nat, j: nat, c: Claim)
    requires i <= j <= |events| && Run(h, clock, events).Some?
    requires Run(h, clock, events[..i]).Some?
    requires var s, n := Run(h, clock, events[..i]).value, Name(c.account, c.device);
      n in s.devices && (s.devices[n].state == Revoked || c.epoch < s.devices[n].epoch)
    ensures Run(h, clock, events[..j]).Some? && !ProofMatches(Run(h, clock, events[..j]).value, c)
  {
    hide Next;
    DevicesMoveForward(h, clock, events, i, j, Name(c.account, c.device));
  }

  // ---------- one-time identifiers ----------

  function ProofToken(c: Claim): (t: Token)
  {
    Token(c.proofId, c.device, c.expiresAt)
  }

  predicate GoalOk(k: Worker)
  {
    && (k.TokenCheck? && k.goal.Answer? ==> k.token == ProofToken(k.goal.proof.claim))
    && (k.TokenInsert? && k.goal.Answer? ==> k.token == ProofToken(k.goal.proof.claim))
    && (k.ProofRead? && k.goal.Answer? ==> k.goal.proof == k.proof)
  }

  predicate Kept(s: System, token: Token)
  {
    token.expiresAt > s.clock ==> Name(token.id, token.device) in s.replay && s.replay[Name(token.id, token.device)] == token.expiresAt
  }

  predicate Recorded(s: System)
  {
    && (forall w | w in s.workers :: GoalOk(s.workers[w]))
    && (forall i | 0 <= i < |s.log| :: s.log[i].landed <= s.clock && Kept(s, s.log[i].token))
    && (forall i | 0 <= i < |s.answers| :: s.answers[i].landed <= s.clock && Kept(s, ProofToken(s.answers[i].proof.claim)))
    && (forall i, j | 0 <= i < j < |s.log| && s.log[i].token == s.log[j].token :: s.log[j].landed >= s.log[j].token.expiresAt)
    && (forall i, j | 0 <= i < j < |s.answers| && s.answers[i].proof == s.answers[j].proof ::
          s.answers[j].landed >= s.answers[j].proof.claim.expiresAt)
  }

  predicate SameRecords(s: System, t: System)
  {
    && t.log == s.log && t.answers == s.answers && s.clock <= t.clock
    && forall n | n in s.replay && s.replay[n] > t.clock :: n in t.replay && t.replay[n] == s.replay[n]
  }

  lemma QuietRecords(s: System, t: System, w: nat)
    requires Recorded(s) && SameRecords(s, t) && OthersStay(s, t, w) && (w in t.workers ==> GoalOk(t.workers[w]))
    ensures Recorded(t)
  {
    hide GoalOk;
    forall i | 0 <= i < |t.log| ensures Kept(t, t.log[i].token) { assert Kept(s, s.log[i].token); }
    forall i | 0 <= i < |t.answers| ensures Kept(t, ProofToken(t.answers[i].proof.claim)) {
      assert Kept(s, ProofToken(s.answers[i].proof.claim));
    }
  }

  lemma InsertRecords(s: System, w: nat, token: Token, goal: Goal)
    requires Recorded(s) && w in s.workers && s.workers[w] == TokenInsert(token, goal)
    ensures Recorded(DoInsert(s, w, token, goal))
  {
    var t := DoInsert(s, w, token, goal);
    assert GoalOk(s.workers[w]);
    if Name(token.id, token.device) in s.replay {
      QuietRecords(s, t, w);
    } else {
      hide Recorded;
      InsertLogged(s, t, w, token, goal);
    }
  }

  lemma InsertLogged(s: System, t: System, w: nat, token: Token, goal: Goal)
    requires Recorded(s) && Name(token.id, token.device) !in s.replay && w in s.workers
    requires goal.Answer? ==> token == ProofToken(goal.proof.claim)
    requires t.replay == s.replay[Name(token.id, token.device) := token.expiresAt] && t.clock == s.clock && OthersStay(s, t, w)
    requires t.log == s.log + [Consumption(token, s.clock)] && (w in t.workers ==> GoalOk(t.workers[w]))
    requires t.answers == s.answers + if goal.Answer? then [Acceptance(goal.proof, s.clock)] else []
    ensures Recorded(t)
  {
    hide GoalOk;
    forall i | 0 <= i < |t.log| ensures t.log[i].landed <= t.clock && Kept(t, t.log[i].token) {
      if i < |s.log| { assert Kept(s, s.log[i].token); }
    }
    forall i | 0 <= i < |t.answers| ensures t.answers[i].landed <= t.clock && Kept(t, ProofToken(t.answers[i].proof.claim)) {
      if i < |s.answers| { assert Kept(s, ProofToken(s.answers[i].proof.claim)); }
    }
    forall i, j | 0 <= i < j < |t.log| && t.log[i].token == t.log[j].token ensures t.log[j].landed >= t.log[j].token.expiresAt {
      assert Kept(s, s.log[i].token);
    }
    forall i, j | 0 <= i < j < |t.answers| && t.answers[i].proof == t.answers[j].proof
      ensures t.answers[j].landed >= t.answers[j].proof.claim.expiresAt
    {
      assert Kept(s, ProofToken(s.answers[i].proof.claim));
    }
  }

  lemma RecordedNext(h: Crypto, s: System, e: DurableDevices.Event)
    requires Recorded(s) && Next(h, s, e).Some?
    ensures Recorded(Next(h, s, e).value)
  {
    hide DoProceed, ProofChecks, MayBootstrap, MayActivate, KnowsDevice, FreshAccount, GoalOk;
    var t := Next(h, s, e).value;
    match e {
      case Tick(_) => hide Recorded; StillRecords(s, t);
      case ReplayTtl(_) => hide Recorded; StillRecords(s, t);
      case Proceed(w, account) => ProceedRecords(h, s, w, account);
      case UpsertRefused(w) => hide Recorded; if t == s { StillRecords(s, t); } else { QuietRecords(s, t, w); }
      case Crash(w) => hide Recorded; QuietRecords(s, t, w);
      case _ => hide Recorded; StartRecords(h, s, e); QuietRecords(s, t, e.w);
    }
  }

  predicate Starts(e: DurableDevices.Event)
  {
    e.StartBootstrap? || e.StartEnroll? || e.StartActivate? || e.StartRevoke? || e.StartVerify?
  }

  lemma StartRecords(h: Crypto, s: System, e: DurableDevices.Event)
    requires Starts(e) && Next(h, s, e).Some?
    ensures var t := Next(h, s, e).value; SameRecords(s, t) && OthersStay(s, t, e.w) && GoalOk(t.workers[e.w])
  {
    hide ProofChecks, MayBootstrap, MayActivate, KnowsDevice;
  }

  lemma StillRecords(s: System, t: System)
    requires Recorded(s) && SameRecords(s, t) && t.workers == s.workers
    ensures Recorded(t)
  {
    hide GoalOk;
    forall i | 0 <= i < |t.log| ensures Kept(t, t.log[i].token) { assert Kept(s, s.log[i].token); }
    forall i | 0 <= i < |t.answers| ensures Kept(t, ProofToken(t.answers[i].proof.claim)) {
      assert Kept(s, ProofToken(s.answers[i].proof.claim));
    }
  }

  lemma RegistryRecords(s: System, w: nat, account: string)
    requires w in s.workers
    requires var k := s.workers[w]; k.BootReserve? || k.BootUpsert? || k.BootBind? || k.EnrollReserve? || k.EnrollUpsert?
    ensures var t := DoRegistry(s, w, s.workers[w], account);
      SameRecords(s, t) && OthersStay(s, t, w) && (w in t.workers ==> GoalOk(t.workers[w]))
  {
  }

  lemma ReadRecords(h: Crypto, s: System, w: nat, account: string)
    requires w in s.workers && GoalOk(s.workers[w])
    requires var k := s.workers[w]; !(k.BootReserve? || k.BootUpsert? || k.BootBind? || k.EnrollReserve? || k.EnrollUpsert? || k.TokenInsert?)
    ensures var t := DoProceed(h, s, w, account);
      SameRecords(s, t) && OthersStay(s, t, w) && (w in t.workers ==> GoalOk(t.workers[w]))
  {
    hide MayEnroll, MayRevoke, ProofChecks, ProofMatches, DoRegistry;
  }

  lemma ProceedRecords(h: Crypto, s: System, w: nat, account: string)
    requires Recorded(s) && w in s.workers
    ensures Recorded(DoProceed(h, s, w, account))
  {
    assert GoalOk(s.workers[w]);
    hide Recorded, DoRegistry, DoInsert, SameRecords, OthersStay, GoalOk;
    match s.workers[w] {
      case TokenInsert(token, goal) => InsertRecords(s, w, token, goal);
      case BootReserve(_, _) => RegistryRecords(s, w, account); QuietRecords(s, DoProceed(h, s, w, account), w);
      case BootUpsert(_, _, _) => RegistryRecords(s, w, account); QuietRecords(s, DoProceed(h, s, w, account), w);
      case BootBind(_, _) => RegistryRecords(s, w, account); QuietRecords(s, DoProceed(h, s, w, account), w);
      case EnrollReserve(_, _) => RegistryRecords(s, w, account); QuietRecords(s, DoProceed(h, s, w, account), w);
      case EnrollUpsert(_, _) => RegistryRecords(s, w, account); QuietRecords(s, DoProceed(h, s, w, account), w);
      case _ =>
        hide DoProceed;
        ReadRecords(h, s, w, account);
        QuietRecords(s, DoProceed(h, s, w, account), w);
    }
  }

  lemma {:induction false} AlwaysRecorded(h: Crypto, clock: int, events: seq<DurableDevices.Event>)
    requires Run(h, clock, events).Some?
    ensures Recorded(Run(h, clock, events).value)
  {
    hide Next;
    if events != [] {
      AlwaysRecorded(h, clock, events[..|events| - 1]);
      RecordedNext(h, Run(h, clock, events[..|events| - 1]).value, events[|events| - 1]);
    }
  }

  /**
   * In any run a proof is accepted at most once by a record that lands before the proof expires: a second acceptance
   * needs a second record of the same proof, and that can only land at or after its expiry.
   */
  lemma AcceptedOnceBeforeExpiry(h: Crypto, clock: int, events: seq<DurableDevices.Event>, i: nat, j: nat)
    requires Run(h, clock, events).Some?
    requires i < j < |Run(h, clock, events).value.answers|
    requires Run(h, clock, events).value.answers[i].proof == Run(h, clock, events).value.answers[j].proof
    ensures Run(h, clock, events).value.answers[j].landed >= Run(h, clock, events).value.answers[j].proof.claim.expiresAt
  {
    hide Next;
    AlwaysRecorded(h, clock, events);
  }

  /** The same for every one-time identifier: request ids, event ids and proof ids. */
  lemma ConsumedOnceBeforeExpiry(h: Crypto, clock: int, events: seq<DurableDevices.Event>, i: nat, j: nat)
    requires Run(h, clock, events).Some?
    requires i < j < |Run(h, clock, events).value.log|
    requires Run(h, clock, events).value.log[i].token == Run(h, clock, events).value.log[j].token
    ensures Run(h, clock, events).value.log[j].landed >= Run(h, clock, events).value.log[j].token.expiresAt
  {
    hide Next;
    AlwaysRecorded(h, clock, events);
  }

  lemma Extend(h: Crypto, clock: int, events: seq<DurableDevices.Event>, s: System, e: DurableDevices.Event, t: System)
    requires Run(h, clock, events) == Some(s) && Next(h, s, e) == Some(t)
    ensures Run(h, clock, events + [e]) == Some(t)
  {
    hide Next;
    assert (events + [e])[..|events|] == events;
  }

  /** A worker that has checked the clock and is about to record its proof. */
  lemma ReachInsert(h: Crypto, clock: int, events: seq<DurableDevices.Event>, s: System, w: nat, proof: Proof, account: string)
    returns (more: seq<DurableDevices.Event>)
    requires Run(h, clock, events) == Some(s) && w !in s.workers && FreshAccount(s, account)
    requires ProofChecks(h, proof, proof.claim.operation, s.clock) && ProofMatches(s, proof.claim)
    ensures Run(h, clock, more) == Some(Goto(s, w, TokenInsert(ProofToken(proof.claim), Answer(proof))))
  {
    hide Run, FreshAccount, ProofMatches;
    var c := proof.claim;
    var s1 := Goto(s, w, ProofRead(proof, Answer(proof)));
    Extend(h, clock, events, s, StartVerify(w, proof, c.operation), s1);
    var e1 := events + [StartVerify(w, proof, c.operation)];
    SameStore(s, s1, account, c);
    var s2 := Goto(s1, w, TokenCheck(ProofToken(c), Answer(proof)));
    Extend(h, clock, e1, s1, DurableDevices.Event.Proceed(w, account), s2);
    var e2 := e1 + [DurableDevices.Event.Proceed(w, account)];
    SameStore(s, s2, account, c);
    var s3 := Goto(s2, w, TokenInsert(ProofToken(c), Answer(proof)));
    Extend(h, clock, e2, s2, DurableDevices.Event.Proceed(w, account), s3);
    more := e2 + [DurableDevices.Event.Proceed(w, account)];
    assert s3 == Goto(s, w, TokenInsert(ProofToken(c), Answer(proof)));
  }

  lemma SameStore(s: System, t: System, account: string, c: Claim)
    requires t.devices == s.devices
    ensures FreshAccount(s, account) == FreshAccount(t, account) && ProofMatches(s, c) == ProofMatches(t, c)
  {
  }

  /** The record of a proof lands. */
  lemma Land(h: Crypto, clock: int, events: seq<DurableDevices.Event>, s: System, w: nat, proof: Proof, account: string, t: System)
    requires Run(h, clock, events) == Some(s) && FreshAccount(s, account)
    requires w in s.workers && s.workers[w] == TokenInsert(ProofToken(proof.claim), Answer(proof))
    requires Name(proof.claim.proofId, proof.claim.device) !in s.replay
    requires t == DoInsert(s, w, ProofToken(proof.claim), Answer(proof))
    ensures Run(h, clock, events + [DurableDevices.Event.Proceed(w, account)]) == Some(t)
  {
    hide Run, FreshAccount;
    Extend(h, clock, events, s, DurableDevices.Event.Proceed(w, account), t);
  }

  /**
   * The bound is exact: from any reachable state any standing proof can be accepted twice, if two verifications pass
   * the expiry check together and the second record lands only after the first has expired and been purged.
   */
  lemma LateRecordAcceptsTwice(h: Crypto, clock: int, events: seq<DurableDevices.Event>, v: nat, w: nat, proof: Proof, account: string)
    returns (more: seq<DurableDevices.Event>)
    requires Run(h, clock, events).Some?
    requires var s := Run(h, clock, events).value;
      && v !in s.workers && w !in s.workers && v != w && FreshAccount(s, account)
      && ProofChecks(h, proof, proof.claim.operation, s.clock) && ProofMatches(s, proof.claim)
      && Name(proof.claim.proofId, proof.claim.device) !in s.replay
    ensures Run(h, clock, more).Some?
    ensures var s, c := Run(h, clock, events).value, proof.claim;
      Run(h, clock, more).value.answers == s.answers + [Acceptance(proof, s.clock), Acceptance(proof, c.expiresAt)]
  {
    hide Run, FreshAccount, ProofMatches, ProofChecks;
    var s, c := Run(h, clock, events).value, proof.claim;
    var n := Name(c.proofId, c.device);
    var waiting := TokenInsert(ProofToken(c), Answer(proof));
    var e1 := ReachInsert(h, clock, events, s, v, proof, account);
    var s1 := Goto(s, v, waiting);
    SameStore(s, s1, account, c);
    var e2 := ReachInsert(h, clock, e1, s1, w, proof, account);
    var s2 := Goto(s1, w, waiting);
    SameStore(s, s2, account, c);
    var s3 := DoInsert(s2, v, ProofToken(c), Answer(proof));
    Land(h, clock, e2, s2, v, proof, account, s3);
    var e3 := e2 + [DurableDevices.Event.Proceed(v, account)];
    assert c.expiresAt > s.clock by { Unfold(h, proof, s.clock); }
    var wait: nat := c.expiresAt - s.clock;
    var s4 := s3.(clock := c.expiresAt);
    Extend(h, clock, e3, s3, Tick(wait), s4);
    var s5 := s4.(replay := s4.replay - {n});
    Extend(h, clock, e3 + [Tick(wait)], s4, ReplayTtl(n), s5);
    SameStore(s, s5, account, c);
    var s6 := DoInsert(s5, w, ProofToken(c), Answer(proof));
    Land(h, clock, e3 + [Tick(wait)] + [ReplayTtl(n)], s5, w, proof, account, s6);
    more := e3 + [Tick(wait)] + [ReplayTtl(n)] + [DurableDevices.Event.Proceed(w, account)];
  }

  lemma Unfold(h: Crypto, proof: Proof, now: int)
    requires ProofChecks(h, proof, proof.claim.operation, now)
    ensures proof.claim.expiresAt > now
  {
  }

  // ---------- what an acceptance rests on ----------

  /** Event `k` read the record of the proof's device, for a verification, and found it as the proof says. */
  predicate PassedAt(h: Crypto, clock: int, events: seq<DurableDevices.Event>, k: nat, proof: Proof)
    requires k < |events|
  {
    && Run(h, clock, events[..k]).Some? && Passes(Run(h, clock, events[..k]).value, events[k], proof)
  }

  predicate Passes(s: System, e: DurableDevices.Event, proof: Proof)
  {
    && e.Proceed? && e.w in s.workers && s.workers[e.w] == ProofRead(proof, Answer(proof))
    && ProofMatches(s, proof.claim)
  }

  ghost predicate WasRead(h: Crypto, clock: int, events: seq<DurableDevices.Event>, proof: Proof)
  {
    exists k :: 0 <= k < |events| && PassedAt(h, clock, events, k, proof)
  }

  /** The worker has passed the read of its proof and has only to record it. */
  predicate Recording(k: Worker, proof: Proof)
  {
    (k.TokenCheck? || k.TokenInsert?) && k.goal == Answer(proof)
  }

  predicate Accepted(s: System, proof: Proof)
  {
    exists i | 0 <= i < |s.answers| :: s.answers[i].proof == proof
  }

  lemma RegistryRecordsNothing(s: System, w: nat, account: string, proof: Proof)
    requires w in s.workers
    requires var k := s.workers[w]; k.BootReserve? || k.BootUpsert? || k.BootBind? || k.EnrollReserve? || k.EnrollUpsert?
    ensures var t := DoRegistry(s, w, s.workers[w], account);
      && t.answers == s.answers && OthersStay(s, t, w) && (w in t.workers ==> !Recording(t.workers[w], proof))
  {
  }

  lemma InsertAccepts(s: System, w: nat, token: Token, goal: Goal, proof: Proof)
    requires w in s.workers && s.workers[w] == TokenInsert(token, goal)
    ensures var t := DoInsert(s, w, token, goal);
      && OthersStay(s, t, w) && (w in t.workers ==> !Recording(t.workers[w], proof))
      && (t.answers == s.answers || (goal.Answer? && t.answers == s.answers + [Acceptance(goal.proof, s.clock)]))
  {
  }

  lemma SwapRecordsNothing(s: System, w: nat, target: Record, next: Record, token: Token, proof: Proof)
    ensures var t := Swapped(s, w, target, next, token);
      t.answers == s.answers && OthersStay(s, t, w) && (w in t.workers ==> !Recording(t.workers[w], proof))
  {
  }

  lemma ReadPasses(h: Crypto, s: System, w: nat, account: string, proof: Proof)
    requires w in s.workers && GoalOk(s.workers[w])
    requires var k := s.workers[w]; k.ProofRead? || k.TokenCheck?
    ensures var t := DoProceed(h, s, w, account);
      && t.answers == s.answers && OthersStay(s, t, w)
      && (w in t.workers && Recording(t.workers[w], proof) ==>
            || Recording(s.workers[w], proof)
            || (s.workers[w] == ProofRead(proof, Answer(proof)) && ProofMatches(s, proof.claim)))
  {
    hide MayEnroll, MayRevoke, ProofChecks, ProofMatches, DoRegistry, DoInsert, Swapped, ProofToken, NameOf, ActivatedRecord, RevokedFrom;
  }

  lemma LookupRecordsNothing(h: Crypto, s: System, w: nat, account: string, proof: Proof)
    requires w in s.workers
    requires var k := s.workers[w]; k.EnrollIssuer? || k.RevokeTarget?
    ensures var t := DoProceed(h, s, w, account);
      && t.answers == s.answers && OthersStay(s, t, w) && (w in t.workers ==> !Recording(t.workers[w], proof))
  {
    hide MayEnroll, MayRevoke, ProofChecks, ProofMatches, DoRegistry, DoInsert, Swapped, ActivatedRecord, RevokedFrom;
  }

  /** What a step of the worker itself leads to: it has just passed the read of its proof, or goes on to record it. */
  lemma ProceedRecording(h: Crypto, s: System, w: nat, account: string, proof: Proof)
    requires w in s.workers && GoalOk(s.workers[w])
    ensures var t := DoProceed(h, s, w, account);
      && OthersStay(s, t, w)
      && (w in t.workers && Recording(t.workers[w], proof) ==>
            || Recording(s.workers[w], proof)
            || (s.workers[w] == ProofRead(proof, Answer(proof)) && ProofMatches(s, proof.claim)))
      && (t.answers == s.answers
          || (s.workers[w].TokenInsert? && s.workers[w].goal.Answer?
              && t.answers == s.answers + [Acceptance(s.workers[w].goal.proof, s.clock)]))
  {
    hide MayEnroll, MayRevoke, ProofChecks, ProofMatches, DoRegistry, DoInsert, Swapped, OthersStay, Recording, GoalOk;
    match s.workers[w] {
      case TokenInsert(token, goal) => InsertAccepts(s, w, token, goal, proof);
      case ActivateSwap(c, target, at) =>
        SwapRecordsNothing(s, w, target, ActivatedRecord(target, c.nextEpoch, at), Token(c.id, target.device, c.expiresAt), proof);
      case RevokeSwap(c, target, at) =>
        SwapRecordsNothing(s, w, target, RevokedFrom(target, at), Token(c.id, c.issuer, c.expiresAt), proof);
      case BootReserve(_, _) => RegistryRecordsNothing(s, w, account, proof);
      case BootUpsert(_, _, _) => RegistryRecordsNothing(s, w, account, proof);
      case BootBind(_, _) => RegistryRecordsNothing(s, w, account, proof);
      case EnrollReserve(_, _) => RegistryRecordsNothing(s, w, account, proof);
      case EnrollUpsert(_, _) => RegistryRecordsNothing(s, w, account, proof);
      case EnrollIssuer(_, _, _) => hide DoProceed; LookupRecordsNothing(h, s, w, account, proof);
      case RevokeTarget(_, _, _, _) => hide DoProceed; LookupRecordsNothing(h, s, w, account, proof);
      case _ =>
        hide DoProceed;
        ReadPasses(h, s, w, account, proof);
    }
  }

  lemma OtherEventsRecordNothing(h: Crypto, s: System, e: DurableDevices.Event, w: nat, proof: Proof)
    requires !e.Proceed? && Next(h, s, e).Some?
    ensures var t := Next(h, s, e).value;
      t.answers == s.answers && (w in t.workers && Recording(t.workers[w], proof) ==> w in s.workers && Recording(s.workers[w], proof))
  {
    hide MayBootstrap, MayActivate, KnowsDevice, ProofChecks;
  }

  /** Where a worker about to record comes from. */
  lemma RecordingSource(h: Crypto, s: System, e: DurableDevices.Event, w: nat, proof: Proof)
    requires Recorded(s) && Next(h, s, e).Some? && w in Next(h, s, e).value.workers && Recording(Next(h, s, e).value.workers[w], proof)
    ensures (w in s.workers && Recording(s.workers[w], proof)) || Passes(s, e, proof)
  {
    hide DoProceed, Recording, Kept, FreshAccount, ProofMatches;
    if e.Proceed? {
      assert GoalOk(s.workers[e.w]);
      hide Recorded;
      ProceedRecording(h, s, e.w, e.account, proof);
    } else {
      OtherEventsRecordNothing(h, s, e, w, proof);
    }
  }

  lemma AcceptedSource(h: Crypto, s: System, e: DurableDevices.Event, proof: Proof)
    requires Recorded(s) && Next(h, s, e).Some? && Accepted(Next(h, s, e).value, proof)
    ensures Accepted(s, proof) || (e.Proceed? && e.w in s.workers && Recording(s.workers[e.w], proof))
  {
    hide DoProceed, Kept, FreshAccount, ProofMatches;
    var t := Next(h, s, e).value;
    var i :| 0 <= i < |t.answers| && t.answers[i].proof == proof;
    if e.Proceed? {
      assert GoalOk(s.workers[e.w]);
      hide Recorded;
      ProceedRecording(h, s, e.w, e.account, proof);
    } else {
      OtherEventsRecordNothing(h, s, e, 0, proof);
    }
    if i < |s.answers| {
      assert t.answers[i] == s.answers[i];
    }
  }

  lemma ReadEarlier(h: Crypto, clock: int, events: seq<DurableDevices.Event>, e: DurableDevices.Event, proof: Proof)
    requires WasRead(h, clock, events, proof)
    ensures WasRead(h, clock, events + [e], proof)
  {
    hide Run, Passes;
    var k :| 0 <= k < |events| && PassedAt(h, clock, events, k, proof);
    assert (events + [e])[..k] == events[..k];
    assert PassedAt(h, clock, events + [e], k, proof);
  }

  lemma {:induction false} RecordingWasRead(h: Crypto, clock: int, events: seq<DurableDevices.Event>, w: nat, proof: Proof)
    requires Run(h, clock, events).Some?
    requires var s := Run(h, clock, events).value;
      w in s.workers && Recording(s.workers[w], proof)
    ensures WasRead(h, clock, events, proof)
  {
    hide Next, Recording, Passes, WasRead;
    var n := |events| - 1;
    assert events != [] by { NobodyWorksAtFirst(h, clock, events, w); }
    var s, e := Run(h, clock, events[..n]).value, events[n];
    AlwaysRecorded(h, clock, events[..n]);
    RecordingSource(h, s, e, w, proof);
    assert events[..n] + [e] == events;
    if Passes(s, e, proof) {
      PassedNow(h, clock, events, n, proof);
    } else {
      RecordingWasRead(h, clock, events[..n], w, proof);
      ReadEarlier(h, clock, events[..n], e, proof);
    }
  }

  lemma NobodyWorksAtFirst(h: Crypto, clock: int, events: seq<DurableDevices.Event>, w: nat)
    requires Run(h, clock, events).Some? && w in Run(h, clock, events).value.workers
    ensures events != []
  {
  }

  lemma PassedNow(h: Crypto, clock: int, events: seq<DurableDevices.Event>, k: nat, proof: Proof)
    requires k < |events| && PassedAt(h, clock, events, k, proof)
    ensures WasRead(h, clock, events, proof)
  {
    hide PassedAt;
  }

  lemma {:induction false} AcceptedWasRead(h: Crypto, clock: int, events: seq<DurableDevices.Event>, proof: Proof)
    requires Run(h, clock, events).Some? && Accepted(Run(h, clock, events).value, proof)
    ensures WasRead(h, clock, events, proof)
  {
    hide Next, Recording, Passes, WasRead;
    assert events != [];
    var n := |events| - 1;
    var s, e := Run(h, clock, events[..n]).value, events[n];
    AlwaysRecorded(h, clock, events[..n]);
    AcceptedSource(h, s, e, proof);
    assert events[..n] + [e] == events;
    if Accepted(s, proof) {
      AcceptedWasRead(h, clock, events[..n], proof);
    } else {
      RecordingWasRead(h, clock, events[..n], e.w, proof);
    }
    ReadEarlier(h, clock, events[..n], e, proof);
  }

  /** The device of the claim has been revoked, or has moved past the claim's epoch. */
  predicate Retired(s: System, c: Claim)
  {
    var n := Name(c.account, c.device);
    n in s.devices && (s.devices[n].state == Revoked || c.epoch < s.devices[n].epoch)
  }

  /**
   * Every accepted verification rests on a read of its device's record, active, with the proof's identity and epoch, and
   * that read came before any moment at which the device was revoked or had moved on: the acceptance itself may land later.
   */
  lemma AcceptanceRestsOnRead(h: Crypto, clock: int, events: seq<DurableDevices.Event>, proof: Proof) returns (k: nat)
    requires Run(h, clock, events).Some? && Accepted(Run(h, clock, events).value, proof)
    ensures k < |events| && PassedAt(h, clock, events, k, proof)
    ensures forall i | 0 <= i <= k && Run(h, clock, events[..i]).Some? :: !Retired(Run(h, clock, events[..i]).value, proof.claim)
  {
    hide Run, Accepted, Passes;
    AcceptedWasRead(h, clock, events, proof);
    k :| 0 <= k < |events| && PassedAt(h, clock, events, k, proof);
    forall i | 0 <= i <= k && Run(h, clock, events[..i]).Some? ensures !Retired(Run(h, clock, events[..i]).value, proof.claim) {
      if Retired(Run(h, clock, events[..i]).value, proof.claim) {
        OldProofsNeverPass(h, clock, events, i, k, proof.claim);
        PassesMatches(Run(h, clock, events[..k]).value, events[k], proof);
      }
    }
  }

  lemma PassesMatches(s: System, e: DurableDevices.Event, proof: Proof)
    requires Passes(s, e, proof)
    ensures ProofMatches(s, proof.claim)
  {
  }
}

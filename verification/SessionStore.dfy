/**
 * The client's conversation index and its removal markers (client/src/product/sessionStore.ts): the change each
 * writer computes from what it has read, and what any sequence of committed changes keeps.
 */
module SessionStore {
  import opened Common

  const CONVERSATION_WINDOW: nat := 1000
  const MAX_CONFLICT_RETRIES: nat := 64
  const MAX_SAFE_INTEGER: int := 0x1F_FFFF_FFFF_FFFF

  datatype Bootstrap = PendingLocal | PendingRemote | Established | FailedOrUnsupported

  datatype Relationship = Invitation | Accepted

  datatype Descriptor = Descriptor(
    room: string, capability: string, remoteAddress: Option<string>, commitment: Option<string>,
    signedInvitation: Option<string>, pendingExpiresAt: Option<int>, bootstrap: Option<Bootstrap>,
    relationship: Option<Relationship>, displayLabel: string, nickname: Option<string>, dismissed: Option<bool>,
    archived: Option<bool>, updatedAt: int)

  /** An index entry: one that validates, with whatever else it carries, or one that does not. */
  datatype Entry = Readable(item: Descriptor, extra: string) | Unreadable(raw: string)

  /** A stored record; `Corrupt` is one that does not parse to a list. */
  datatype Record<T> = Absent | Corrupt(bytes: string) | List(values: seq<T>)

  datatype Store = Store(index: Record<Entry>, removals: Record<string>)

  /** A patch field: not named, named without a value, or given one. */
  datatype Field<T> = Untouched | Cleared | Given(value: T)

  datatype Patch = Patch(
    displayLabel: Field<string>, nickname: Field<string>, bootstrap: Field<Bootstrap>, relationship: Field<Relationship>,
    remoteAddress: Field<string>, commitment: Field<string>, dismissed: Field<bool>, archived: Field<bool>,
    pendingExpiresAt: Field<int>)

  /** What the contact registry holds under an address. */
  datatype Contact = Contact(contactId: string, identityId: string)

  datatype Change = Save(item: Descriptor) | Update(patch: Patch) | Remove

  /** What a change reads besides the two records: the clock and the contact it looks up, if that is stored. */
  datatype Surroundings = Surroundings(now: int, contacts: map<string, Contact>)

  datatype Failure = Invalid | Unavailable | Removed | MembershipMismatch | IndexLimit | Conflict

  /** The regular expressions and String.trim. */
  datatype Host = Host(isRoom: string -> bool, isCapability: string -> bool, isCommitment: string -> bool, trim: string -> string)

  predicate Holds<T>(o: Option<T>, p: T -> bool)
  {
    o.Some? ==> p(o.value)
  }

  /** The characters a nickname may not contain. */
  predicate Control(c: char)
  {
    c < ' ' || c == '\U{7F}'
  }

  predicate NicknameAllowed(h: Host, n: string)
  {
    h.trim(n) != "" && |n| <= 80 && forall i | 0 <= i < |n| :: !Control(n[i])
  }

  /** What a descriptor must be before it is trimmed. */
  predicate Acceptable(h: Host, d: Descriptor)
  {
    && h.isRoom(d.room) && h.isCapability(d.capability)
    && Holds(d.remoteAddress, a => |a| >= 8) && Holds(d.commitment, h.isCommitment)
    && Holds(d.pendingExpiresAt, n => 0 <= n <= MAX_SAFE_INTEGER)
    && h.trim(d.displayLabel) != "" && |d.displayLabel| <= 80 && Holds(d.nickname, n => NicknameAllowed(h, n))
    && 0 <= d.updatedAt <= MAX_SAFE_INTEGER
  }

  function Trimmed(h: Host, o: Option<string>): (t: Option<string>)
  {
    if o.Some? then Some(h.trim(o.value)) else None
  }

  /** validateConversationDescriptor: the descriptor with label and nickname trimmed, if it is acceptable as it came. */
  function Validated(h: Host, d: Descriptor): (r: Result<Descriptor, Failure>)
    ensures r.Ok? ==> r.value == d.(displayLabel := r.value.displayLabel, nickname := r.value.nickname)
  {
    if Acceptable(h, d) then Ok(d.(displayLabel := h.trim(d.displayLabel), nickname := Trimmed(h, d.nickname))) else Err(Invalid)
  }

  function Or<T>(a: Option<T>, b: Option<T>): (r: Option<T>)
  {
    if a.Some? then a else b
  }

  function Patched<T>(f: Field<T>, current: Option<T>): (r: Option<T>)
  {
    match f
    case Untouched => current
    case Cleared => None
    case Given(v) => Some(v)
  }

  /** `patch.field ?? current.field` */
  function Proposed<T>(f: Field<T>, current: Option<T>): (r: Option<T>)
  {
    if f.Given? then Some(f.value) else current
  }

  function Locked<T(==)>(current: Option<T>, final: T, otherwise: Option<T>): (r: Option<T>)
  {
    if current == Some(final) then current else otherwise
  }

  function Saved(h: Host, current: Option<Descriptor>, item: Descriptor): (r: Result<Descriptor, Failure>)
  {
    match Validated(h, item)
    case Err(e) => Err(e)
    case Ok(d) =>
      match current
      case None => Ok(d)
      case Some(c) =>
        if c.capability != d.capability || (c.remoteAddress.Some? && c.remoteAddress != d.remoteAddress)
           || (c.commitment.Some? && c.commitment != d.commitment)
        then Err(MembershipMismatch)
        else
          Validated(h, Descriptor(
            d.room, d.capability, Or(d.remoteAddress, c.remoteAddress), Or(d.commitment, c.commitment),
            Or(c.signedInvitation, d.signedInvitation), Or(d.pendingExpiresAt, c.pendingExpiresAt),
            Locked(c.bootstrap, Established, Or(d.bootstrap, c.bootstrap)),
            Locked(c.relationship, Accepted, Or(d.relationship, c.relationship)),
            d.displayLabel, Or(d.nickname, c.nickname), Or(d.dismissed, c.dismissed), c.archived, d.updatedAt))
  }

  predicate Empty(f: Field<string>)
  {
    f.Cleared? || f == Given("")
  }

  /** A new identity commitment must be the one the contact registry already holds for the address. */
  predicate CommitmentAllowed(p: Patch, c: Descriptor, around: Surroundings)
  {
    p.commitment.Given? && Some(p.commitment.value) != c.commitment ==>
      var address := Proposed(p.remoteAddress, c.remoteAddress);
      && address.Some? && address.value in around.contacts
      && around.contacts[address.value] == Contact(address.value, p.commitment.value)
  }

  function Updated(h: Host, current: Option<Descriptor>, p: Patch, around: Surroundings): (r: Result<Descriptor, Failure>)
  {
    match current
    case None => Err(Removed)
    case Some(c) =>
      if Empty(p.remoteAddress) || Empty(p.commitment) then Err(MembershipMismatch)
      else if p.remoteAddress.Given? && c.remoteAddress.Some? && p.remoteAddress.value != c.remoteAddress.value then Err(MembershipMismatch)
      else if !CommitmentAllowed(p, c, around) then Err(MembershipMismatch)
      else if p.displayLabel.Cleared? then Err(Invalid)
      else
        Validated(h, Descriptor(
          c.room, c.capability, Patched(p.remoteAddress, c.remoteAddress), Patched(p.commitment, c.commitment),
          c.signedInvitation, Patched(p.pendingExpiresAt, c.pendingExpiresAt),
          Locked(c.bootstrap, Established, Proposed(p.bootstrap, c.bootstrap)),
          Locked(c.relationship, Accepted, Proposed(p.relationship, c.relationship)),
          if p.displayLabel.Given? then p.displayLabel.value else c.displayLabel, Patched(p.nickname, c.nickname),
          Patched(p.dismissed, c.dismissed), Patched(p.archived, c.archived), around.now))
  }

  function Changed(h: Host, current: Option<Descriptor>, change: Change, around: Surroundings): (r: Result<Descriptor, Failure>)
    requires !change.Remove?
  {
    match change
    case Save(item) => Saved(h, current, item)
    case Update(patch) => Updated(h, current, patch, around)
  }

  /** The new entry is spread over the stored one: a field it does not carry keeps its stored value. */
  function Overlay(c: Descriptor, n: Descriptor): (d: Descriptor)
  {
    Descriptor(
      n.room, n.capability, Or(n.remoteAddress, c.remoteAddress), Or(n.commitment, c.commitment),
      Or(n.signedInvitation, c.signedInvitation), Or(n.pendingExpiresAt, c.pendingExpiresAt), Or(n.bootstrap, c.bootstrap),
      Or(n.relationship, c.relationship), n.displayLabel, Or(n.nickname, c.nickname), Or(n.dismissed, c.dismissed),
      Or(n.archived, c.archived), n.updatedAt)
  }

  predicate For(e: Entry, room: string)
  {
    e.Readable? && e.item.room == room
  }

  function Matches(index: seq<Entry>, room: string): (m: seq<Entry>)
    ensures forall i | 0 <= i < |m| :: For(m[i], room)
  {
    if index == [] then [] else (if For(index[0], room) then [index[0]] else []) + Matches(index[1..], room)
  }

  function Others(index: seq<Entry>, room: string): (o: seq<Entry>)
    ensures forall i | 0 <= i < |o| :: !For(o[i], room)
  {
    if index == [] then [] else (if For(index[0], room) then [] else [index[0]]) + Others(index[1..], room)
  }

  function CountReadable(index: seq<Entry>): (n: nat)
    ensures n <= |index|
  {
    if index == [] then 0 else (if index[0].Readable? then 1 else 0) + CountReadable(index[1..])
  }

  function Unreadables(index: seq<Entry>): (u: seq<Entry>)
  {
    if index == [] then [] else (if index[0].Unreadable? then [index[0]] else []) + Unreadables(index[1..])
  }

  function Values<T>(r: Record<T>): (v: seq<T>)
  {
    if r.List? then r.values else []
  }

  predicate Parses<T>(r: Record<T>)
  {
    !r.Corrupt?
  }

  /** The entry the index holds for a room, if any. */
  function Current(index: seq<Entry>, room: string): (c: Option<Descriptor>)
    ensures c.Some? ==> c.value.room == room
  {
    var m := Matches(index, room);
    if m == [] then None else Some(m[0].item)
  }

  /** The new or changed entry goes to the front; the entries of other rooms follow in their order. */
  function Placed(index: seq<Entry>, room: string, next: Descriptor): (n: seq<Entry>)
  {
    var m := Matches(index, room);
    var entry := if m == [] then Readable(next, "") else m[0].(item := Overlay(m[0].item, next));
    [entry] + Others(index, room)
  }

  /** One writer's change, from the records it has read to the records it proposes. */
  function Mutated(h: Host, s: Store, room: string, change: Change, around: Surroundings): (r: Result<Store, Failure>)
  {
    if !h.isRoom(room) || !Parses(s.index) || !Parses(s.removals) then Err(Invalid)
    else
      var index, removals := Values(s.index), Values(s.removals);
      if exists k | 0 <= k < |removals| :: !h.isRoom(removals[k]) then Err(Invalid)
      else if !change.Remove? && room in removals then Err(Removed)
      else
        var matches := Matches(index, room);
        if |matches| > 1 then Err(Invalid)
        else if change.Remove? then
          Ok(Store(List(Others(index, room)), List(if room in removals then removals else removals + [room])))
        else
          var next := Changed(h, Current(index, room), change, around);
          if next.Err? then Err(next.error)
          else if matches == [] && CountReadable(index) >= CONVERSATION_WINDOW then Err(IndexLimit)
          else Ok(Store(List(Placed(index, room, next.value)), List(removals)))
  }

  /** saveConversationDescriptor validates its argument and takes the room from it. */
  predicate WellFormed(h: Host, room: string, change: Change)
  {
    change.Save? ==> change.item.room == room && Acceptable(h, change.item)
  }

  datatype Commit = Commit(room: string, change: Change, around: Surroundings)

  /** The store after one writer after the other, in commit order; one that fails leaves it alone. */
  function Applied(h: Host, s: Store, commits: seq<Commit>): (t: Store)
  {
    if commits == [] then s
    else Step(h, Applied(h, s, commits[..|commits| - 1]), commits[|commits| - 1])
  }

  function Step(h: Host, s: Store, c: Commit): (t: Store)
  {
    if WellFormed(h, c.room, c.change) && Mutated(h, s, c.room, c.change, c.around).Ok?
    then Mutated(h, s, c.room, c.change, c.around).value else s
  }

  // ---------- list facts ----------

  lemma {:induction false} MatchesAndOthers(index: seq<Entry>, room: string)
    ensures CountReadable(Others(index, room)) + |Matches(index, room)| == CountReadable(index)
    ensures Unreadables(Others(index, room)) == Unreadables(index)
  {
    if index != [] {
      MatchesAndOthers(index[1..], room);
      var o := Others(index[1..], room);
      if !For(index[0], room) {
        assert ([index[0]] + o)[1..] == o;
      } else {
        assert [] + o == o;
      }
    }
  }

  /** The list without one room keeps the entries of every other room, in order. */
  lemma {:induction false} MatchesOfOthers(index: seq<Entry>, room: string, other: string)
    ensures Matches(Others(index, room), other) == if other == room then [] else Matches(index, other)
  {
    if index != [] {
      MatchesOfOthers(index[1..], room, other);
      var o := Others(index[1..], room);
      if !For(index[0], room) {
        assert ([index[0]] + o)[1..] == o;
      } else {
        assert [] + o == o;
      }
    }
  }

  lemma {:induction false} OthersOnceMore(index: seq<Entry>, room: string)
    ensures Others(Others(index, room), room) == Others(index, room)
  {
    if index != [] {
      OthersOnceMore(index[1..], room);
      var o := Others(index[1..], room);
      if !For(index[0], room) {
        assert ([index[0]] + o)[1..] == o;
      } else {
        assert [] + o == o;
      }
    }
  }

  // ---------- what one committed change keeps ----------

  /** A removal marker and an index entry never stand for the same room. */
  predicate Disjoint(s: Store)
  {
    forall room | room in Values(s.removals) :: Matches(Values(s.index), room) == []
  }

  predicate OnePerRoom(s: Store, room: string)
  {
    |Matches(Values(s.index), room)| <= 1
  }

  /** What no writer may undo about a conversation; and what the writers mean to clear, but cannot. */
  predicate Keeps(a: Descriptor, b: Descriptor)
  {
    && b.room == a.room && b.capability == a.capability
    && (a.remoteAddress.Some? ==> b.remoteAddress == a.remoteAddress)
    && (a.bootstrap == Some(Established) ==> b.bootstrap == Some(Established))
    && (a.relationship == Some(Accepted) ==> b.relationship == Some(Accepted))
    && (a.signedInvitation.Some? ==> b.signedInvitation == a.signedInvitation)
    && (a.nickname.Some? ==> b.nickname.Some?) && (a.dismissed.Some? ==> b.dismissed.Some?)
    && (a.archived.Some? ==> b.archived.Some?) && (a.pendingExpiresAt.Some? ==> b.pendingExpiresAt.Some?)
  }

  lemma ChangedKeeps(h: Host, current: Option<Descriptor>, room: string, change: Change, around: Surroundings)
    requires !change.Remove? && Changed(h, current, change, around).Ok? && WellFormed(h, room, change)
    requires current.Some? ==> current.value.room == room
    ensures var n := Changed(h, current, change, around).value;
      n.room == room && (current.Some? ==> Keeps(current.value, Overlay(current.value, n)))
  {
    hide Acceptable;
  }

  lemma InFront(entry: Entry, rest: seq<Entry>, room: string, other: string)
    requires For(entry, room)
    ensures var n := [entry] + rest;
      && Others(n, room) == Others(rest, room) && Unreadables(n) == Unreadables(rest)
      && CountReadable(n) == 1 + CountReadable(rest) && Matches(n, room) == [entry] + Matches(rest, room)
      && (other != room ==> Matches(n, other) == Matches(rest, other))
  {
    assert ([entry] + rest)[1..] == rest;
  }

  lemma PlacedKeeps(index: seq<Entry>, room: string, next: Descriptor, other: string)
    requires next.room == room
    ensures var n := Placed(index, room, next);
      && Others(n, room) == Others(index, room) && Unreadables(n) == Unreadables(index)
      && CountReadable(n) == 1 + CountReadable(index) - |Matches(index, room)|
      && |Matches(n, room)| == 1
      && Current(n, room) == Some(if Matches(index, room) == [] then next else Overlay(Current(index, room).value, next))
      && (other != room ==> Matches(n, other) == Matches(index, other))
  {
    MatchesAndOthers(index, room);
    MatchesOfOthers(index, room, room);
    MatchesOfOthers(index, room, other);
    OthersOnceMore(index, room);
    hide Matches, Others, CountReadable, Unreadables, Or;
    InFront(Placed(index, room, next)[0], Others(index, room), room, other);
  }

  lemma RemovedKeeps(index: seq<Entry>, room: string, other: string)
    ensures var n := Others(index, room);
      && Others(n, room) == n && Unreadables(n) == Unreadables(index) && CountReadable(n) <= CountReadable(index)
      && Matches(n, room) == [] && (other != room ==> Matches(n, other) == Matches(index, other))
  {
    MatchesAndOthers(index, room);
    MatchesOfOthers(index, room, room);
    MatchesOfOthers(index, room, other);
    OthersOnceMore(index, room);
  }

  /** What a committed change does to the room it names, to the rest of the index and to the markers. */
  predicate Careful(s: Store, t: Store, room: string, change: Change, other: string)
  {
    var was, now := Values(s.index), Values(t.index);
    && Others(now, room) == Others(was, room) && Unreadables(now) == Unreadables(was)
    && CountReadable(now) <= Max(CountReadable(was), CONVERSATION_WINDOW)
    && (other != room ==> Matches(now, other) == Matches(was, other))
    && if change.Remove? then
         && Matches(now, room) == [] && room in Values(t.removals)
         && Values(t.removals) == Values(s.removals) + if room in Values(s.removals) then [] else [room]
       else
         && |Matches(was, room)| <= 1 && |Matches(now, room)| == 1 && Values(t.removals) == Values(s.removals)
         && room !in Values(s.removals)
         && (Matches(was, room) != [] ==> Keeps(Current(was, room).value, Current(now, room).value))
  }

  lemma MutatedIsCareful(h: Host, s: Store, room: string, change: Change, around: Surroundings, other: string)
    requires WellFormed(h, room, change) && Mutated(h, s, room, change, around).Ok?
    ensures Careful(s, Mutated(h, s, room, change, around).value, room, change, other)
  {
    hide Changed, Keeps, Overlay, WellFormed, Placed, Others, Matches, CountReadable, Unreadables;
    var index := Values(s.index);
    RemovedKeeps(index, room, other);
    if !change.Remove? {
      var current := Current(index, room);
      ChangedKeeps(h, current, room, change, around);
      PlacedKeeps(index, room, Changed(h, current, change, around).value, other);
    }
  }

  // ---------- what any sequence of committed changes keeps ----------

  lemma StepDisjoint(h: Host, s: Store, c: Commit)
    requires Disjoint(s)
    ensures Disjoint(Step(h, s, c))
  {
    hide Step, Matches, Others, Unreadables, CountReadable, Keeps;
    var t := Step(h, s, c);
    forall room | room in Values(t.removals) ensures Matches(Values(t.index), room) == [] {
      StepCareful(h, s, c, room);
    }
  }

  /** A step commits carefully or changes nothing. */
  lemma StepCareful(h: Host, s: Store, c: Commit, other: string)
    ensures Step(h, s, c) == s || Careful(s, Step(h, s, c), c.room, c.change, other)
  {
    hide Mutated, Careful;
    if WellFormed(h, c.room, c.change) && Mutated(h, s, c.room, c.change, c.around).Ok? {
      MutatedIsCareful(h, s, c.room, c.change, c.around, other);
    }
  }

  lemma KeepsTwice(a: Descriptor, b: Descriptor, c: Descriptor)
    requires Keeps(a, b) && Keeps(b, c)
    ensures Keeps(a, c)
  {
  }

  lemma {:induction false} AppliedDisjoint(h: Host, s: Store, commits: seq<Commit>)
    requires Disjoint(s)
    ensures Disjoint(Applied(h, s, commits))
  {
    hide Disjoint, Step;
    if commits != [] {
      AppliedDisjoint(h, s, commits[..|commits| - 1]);
      StepDisjoint(h, Applied(h, s, commits[..|commits| - 1]), commits[|commits| - 1]);
    }
  }

  predicate Gone(s: Store, room: string)
  {
    room in Values(s.removals) && Matches(Values(s.index), room) == []
  }

  /** A removed room never comes back, whatever is committed after its removal. */
  lemma {:induction false} RemovedNeverReappears(h: Host, s: Store, commits: seq<Commit>, room: string)
    requires Disjoint(s) && room in Values(s.removals)
    ensures Gone(Applied(h, s, commits), room)
  {
    hide Step, Matches, Others, Unreadables, CountReadable, Keeps;
    if commits != [] {
      RemovedNeverReappears(h, s, commits[..|commits| - 1], room);
      StepCareful(h, Applied(h, s, commits[..|commits| - 1]), commits[|commits| - 1], room);
    }
  }

  /** The room was removed, or its one entry still keeps what `c` had established. */
  predicate Holding(t: Store, room: string, c: Descriptor)
  {
    || Gone(t, room)
    || (|Matches(Values(t.index), room)| == 1 && Keeps(c, Current(Values(t.index), room).value))
  }

  /**
   * Over any sequence of commits an established or accepted conversation stays so, and its capability, invitation
   * and remote address never change once set, until it is removed for good. Nor does any writer, whatever it clears, ever
   * leave a nickname, dismissal, archiving or pending expiry empty that once had a value.
   */
  lemma {:induction false} ProgressIsNeverUndone(h: Host, s: Store, commits: seq<Commit>, room: string)
    requires Disjoint(s) && |Matches(Values(s.index), room)| == 1
    ensures Holding(Applied(h, s, commits), room, Current(Values(s.index), room).value)
  {
    hide Step, Matches, Others, Unreadables, CountReadable, Keeps;
    var c := Current(Values(s.index), room).value;
    if commits == [] {
      KeepsSelf(c);
    } else {
      var u, last := Applied(h, s, commits[..|commits| - 1]), commits[|commits| - 1];
      ProgressIsNeverUndone(h, s, commits[..|commits| - 1], room);
      StepCareful(h, u, last, room);
      if last.room == room && !Gone(u, room) && Matches(Values(Step(h, u, last).index), room) != [] {
        if Step(h, u, last) != u && !last.change.Remove? {
          KeepsTwice(c, Current(Values(u.index), room).value, Current(Values(Step(h, u, last).index), room).value);
        }
      }
    }
  }

  lemma KeepsSelf(c: Descriptor)
    ensures Keeps(c, c)
  {
  }

  /** The readable entries stay within the window, and the unreadable ones keep their values and their order. */
  lemma {:induction false} IndexIsBoundedAndPreserved(h: Host, s: Store, commits: seq<Commit>)
    ensures var t := Applied(h, s, commits);
      && CountReadable(Values(t.index)) <= Max(CountReadable(Values(s.index)), CONVERSATION_WINDOW)
      && Unreadables(Values(t.index)) == Unreadables(Values(s.index))
      && Values(s.removals) <= Values(t.removals)
  {
    hide Step, Matches, Others, Unreadables, CountReadable, Keeps;
    if commits != [] {
      IndexIsBoundedAndPreserved(h, s, commits[..|commits| - 1]);
      StepCareful(h, Applied(h, s, commits[..|commits| - 1]), commits[|commits| - 1], "");
    }
  }

  predicate Names(commits: seq<Commit>, room: string)
  {
    exists i | 0 <= i < |commits| :: commits[i].room == room
  }

  /** Entries of rooms that no commit names keep their values. */
  lemma {:induction false} OtherRoomsUntouched(h: Host, s: Store, commits: seq<Commit>, room: string)
    requires !Names(commits, room)
    ensures Matches(Values(Applied(h, s, commits).index), room) == Matches(Values(s.index), room)
  {
    hide Step, Matches, Others, Unreadables, CountReadable, Keeps;
    if commits != [] {
      assert commits[|commits| - 1].room != room;
      assert forall i | 0 <= i < |commits| - 1 :: commits[..|commits| - 1][i] == commits[i];
      OtherRoomsUntouched(h, s, commits[..|commits| - 1], room);
      StepCareful(h, Applied(h, s, commits[..|commits| - 1]), commits[|commits| - 1], room);
    }
  }

  /**
   * What a committed patch leaves in the fields it can clear. Setting and leaving alone work as asked; clearing works
   * only where there was nothing, because the stored entry puts the field back when the new one is spread over it.
   */
  lemma PatchTakesEffect(h: Host, s: Store, room: string, p: Patch, around: Surroundings)
    requires Mutated(h, s, room, Update(p), around).Ok?
    ensures var was, now := Current(Values(s.index), room), Current(Values(Mutated(h, s, room, Update(p), around).value.index), room);
      && was.Some? && now.Some?
      && var c, n := was.value, now.value;
         && (n.nickname == Trimmed(h, Patched(p.nickname, c.nickname)) <==> !(p.nickname.Cleared? && c.nickname.Some?))
         && (n.dismissed == Patched(p.dismissed, c.dismissed) <==> !(p.dismissed.Cleared? && c.dismissed.Some?))
         && (n.archived == Patched(p.archived, c.archived) <==> !(p.archived.Cleared? && c.archived.Some?))
         && (n.pendingExpiresAt == Patched(p.pendingExpiresAt, c.pendingExpiresAt) <==>
               !(p.pendingExpiresAt.Cleared? && c.pendingExpiresAt.Some?))
  {
    hide Acceptable, Matches, Others, CountReadable, Unreadables;
    var c := Current(Values(s.index), room).value;
    PlacedKeeps(Values(s.index), room, Updated(h, Some(c), p, around).value, room);
  }

  /** And what clearing leaves instead is the old value, in each of those fields. */
  lemma ClearedFieldsStay(h: Host, s: Store, room: string, p: Patch, around: Surroundings)
    requires Mutated(h, s, room, Update(p), around).Ok?
    ensures var was, now := Current(Values(s.index), room), Current(Values(Mutated(h, s, room, Update(p), around).value.index), room);
      && was.Some? && now.Some?
      && var c, n := was.value, now.value;
         && (p.nickname.Cleared? ==> n.nickname == c.nickname) && (p.dismissed.Cleared? ==> n.dismissed == c.dismissed)
         && (p.archived.Cleared? ==> n.archived == c.archived)
         && (p.pendingExpiresAt.Cleared? ==> n.pendingExpiresAt == c.pendingExpiresAt)
  {
    hide Acceptable, Matches, Others, CountReadable, Unreadables;
    var c := Current(Values(s.index), room).value;
    PlacedKeeps(Values(s.index), room, Updated(h, Some(c), p, around).value, room);
  }

  const CLEAR_ALL := Patch(Untouched, Cleared, Untouched, Untouched, Untouched, Untouched, Cleared, Cleared, Cleared)

  /** A store and a patch of which nothing takes effect: it clears all four fields, commits, and they all stay. */
  lemma ClearingInVain() returns (h: Host, s: Store, c: Descriptor)
    ensures Current(Values(s.index), c.room) == Some(c) && Mutated(h, s, c.room, Update(CLEAR_ALL), Surroundings(0, map[])).Ok?
    ensures c.nickname.Some? && c.dismissed.Some? && c.archived.Some? && c.pendingExpiresAt.Some?
    ensures Current(Values(Mutated(h, s, c.room, Update(CLEAR_ALL), Surroundings(0, map[])).value.index), c.room) == Some(c)
  {
    h := Host(r => r == "room", k => k == "capability", k => false, t => t);
    c := Descriptor("room", "capability", None, None, None, Some(7), None, None, "Ann", Some("Annie"), Some(true), Some(true), 0);
    var e := Readable(c, "");
    s := Store(List([e]), List([]));
    assert !Control('A') && !Control('n') && !Control('i') && !Control('e');
    assert [e][1..] == [] && Matches([], "room") == [] && Others([], "room") == [];
    assert Matches([e], "room") == [e] + [] && Others([e], "room") == [] + [];
  }

  // ---------- the compare-and-swap loop ----------

  lemma {:induction false} AppliedTwice(h: Host, s: Store, a: seq<Commit>, b: seq<Commit>)
    ensures Applied(h, Applied(h, s, a), b) == Applied(h, s, a + b)
  {
    hide Step;
    if b == [] {
      assert a + b == a;
    } else {
      AppliedTwice(h, s, a, b[..|b| - 1]);
      assert (a + b)[..|a + b| - 1] == a + b[..|b| - 1];
    }
  }

  /** What other writers commit during one attempt: before each read, while the change is computed. */
  datatype Moment = Moment(beforeIndex: seq<Commit>, beforeRemovals: seq<Commit>, beforeSwap: seq<Commit>, around: Surroundings)

  datatype Attempt = Won | Lost | Failed(error: Failure)

  class ConversationStorage {
    var store: Store

    constructor (s: Store)
      ensures store == s
    {
      store := s;
    }

    method Interfere(h: Host, others: seq<Commit>)
      modifies this
      ensures store == Applied(h, old(store), others)
    {
      ghost var was := store;
      for i := 0 to |others|
        invariant store == Applied(h, was, others[..i])
      {
        assert others[..i + 1][..i] == others[..i];
        store := Step(h, store, others[i]);
      }
      assert others[..|others|] == others;
    }

    /** Both records change together, if both still are what the writer read. */
    method CompareAndSwap(expected: Store, next: Store) returns (ok: bool)
      modifies this
      ensures ok <==> old(store) == expected
      ensures store == if ok then next else old(store)
    {
      ok := store == expected;
      if ok { store := next; }
    }

    /** One round of the loop: the two reads are separate, the change may wait, and then the swap decides. */
    method TryOnce(h: Host, room: string, change: Change, m: Moment) returns (r: Attempt, ghost others: seq<Commit>)
      requires WellFormed(h, room, change)
      modifies this
      ensures r == Won ==> Mutated(h, Applied(h, old(store), others), room, change, m.around) == Ok(store)
      ensures r != Won ==> store == Applied(h, old(store), others)
    {
      hide Mutated, Step;
      others := m.beforeIndex + m.beforeRemovals + m.beforeSwap;
      AppliedTwice(h, store, m.beforeIndex, m.beforeRemovals);
      AppliedTwice(h, store, m.beforeIndex + m.beforeRemovals, m.beforeSwap);
      Interfere(h, m.beforeIndex);
      var index := store.index;
      Interfere(h, m.beforeRemovals);
      var removals := store.removals;
      var next := Mutated(h, Store(index, removals), room, change, m.around);
      Interfere(h, m.beforeSwap);
      if next.Err? { return Failed(next.error), others; }
      var ok := CompareAndSwap(Store(index, removals), next.value);
      r := if ok then Won else Lost;
    }

    /**
     * The whole operation. It succeeds by committing exactly one change, computed from the very store it replaces;
     * otherwise it has committed nothing.
     */
    method Mutate(h: Host, room: string, change: Change, moments: seq<Moment>) returns (r: Result<(), Failure>, ghost others: seq<Commit>)
      requires WellFormed(h, room, change) && |moments| == MAX_CONFLICT_RETRIES
      modifies this
      ensures r.Ok? ==> exists k | 0 <= k < |moments| ::
        Mutated(h, Applied(h, old(store), others), room, change, moments[k].around) == Ok(store)
      ensures r.Err? ==> store == Applied(h, old(store), others)
    {
      hide Mutated, Step;
      others := [];
      for attempt := 0 to MAX_CONFLICT_RETRIES
        invariant store == Applied(h, old(store), others)
      {
        ghost var before := others;
        var outcome, more := TryOnce(h, room, change, moments[attempt]);
        others := before + more;
        AppliedTwice(h, old(store), before, more);
        if outcome.Won? { return Ok(()), others; }
        if outcome.Failed? { return Err(outcome.error), others; }
      }
      return Err(Conflict), others;
    }

    /** saveConversationDescriptor: an unacceptable descriptor is refused before anything is read. */
    method SaveDescriptor(h: Host, d: Descriptor, moments: seq<Moment>) returns (r: Result<(), Failure>, ghost others: seq<Commit>)
      requires |moments| == MAX_CONFLICT_RETRIES
      modifies this
      ensures !Acceptable(h, d) ==> r == Err(Invalid) && store == old(store)
      ensures r.Ok? ==> exists k | 0 <= k < |moments| ::
        Mutated(h, Applied(h, old(store), others), d.room, Save(d), moments[k].around) == Ok(store)
      ensures r.Err? ==> store == Applied(h, old(store), others)
    {
      hide Mutated, Step;
      if !Acceptable(h, d) { return Err(Invalid), []; }
      r, others := Mutate(h, d.room, Save(d), moments);
    }
  }
}

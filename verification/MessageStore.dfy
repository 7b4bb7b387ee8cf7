/**
 * The client's message histories (client/src/product/messageStore.ts): the merge of a rendered history into the
 * stored one, the acceptance of a received message, and concurrent writers committing by compare-and-swap.
 */
module MessageStore {
  import opened Common

  const MAX_MESSAGES: nat := 2000
  const WRITE_ATTEMPTS: nat := 8

  datatype Delivery = Pending | Accepted | Failed | Held

  datatype Kind = Sent | Received

  /** `at` is the parsed timestamp; `other` stands for the fields no operation here looks at. */
  datatype Message = Message(
    id: string, sender: string, text: string, kind: Kind, at: int, delivery: Option<Delivery>,
    relayAccepted: Option<bool>, other: string)

  type History = seq<Message>

  function DeliveryRank(d: Option<Delivery>): (rank: nat)
  {
    match d
    case Some(Accepted) => 3
    case Some(Held) => 2
    case Some(Failed) => 1
    case _ => 0
  }

  // ---------- an insertion-ordered map of messages by id ----------

  function Lookup(list: History, id: string): (m: Option<Message>)
    ensures m.Some? ==> m.value.id == id
  {
    if list == [] then None else if list[0].id == id then Some(list[0]) else Lookup(list[1..], id)
  }

  predicate Distinct(list: History)
  {
    list == [] || (Lookup(list[1..], list[0].id).None? && Distinct(list[1..]))
  }

  /** Map.set: replaces in place, or appends. */
  function Put(list: History, m: Message): (r: History)
  {
    if list == [] then [m]
    else if list[0].id == m.id then [m] + list[1..]
    else [list[0]] + Put(list[1..], m)
  }

  function Keyed(list: History): (r: History)
  {
    if list == [] then [] else Put(Keyed(list[..|list| - 1]), list[|list| - 1])
  }

  /** What an incoming copy may change in a stored message: a higher delivery rank, and a relay acceptance. */
  function Raised(e: Message, m: Message): (r: Message)
    ensures r.id == e.id
  {
    e.(delivery := if DeliveryRank(m.delivery) > DeliveryRank(e.delivery) then m.delivery else e.delivery,
       relayAccepted := if m.relayAccepted == Some(true) then Some(true) else e.relayAccepted)
  }

  function Absorb(list: History, m: Message): (r: History)
  {
    match Lookup(list, m.id)
    case None => Put(list, m)
    case Some(e) => Put(list, Raised(e, m))
  }

  function Absorbed(list: History, incoming: History): (r: History)
  {
    if incoming == [] then list
    else Absorb(Absorbed(list, incoming[..|incoming| - 1]), incoming[|incoming| - 1])
  }

  // ---------- the stable sort by timestamp ----------

  predicate Ordered(list: History)
  {
    forall i, j | 0 <= i < j < |list| :: list[i].at <= list[j].at
  }

  function Insert(list: History, m: Message): (r: History)
  {
    if list == [] then [m]
    else if list[0].at <= m.at then [list[0]] + Insert(list[1..], m)
    else [m] + list
  }

  function StableSort(list: History): (r: History)
  {
    if list == [] then [] else Insert(StableSort(list[..|list| - 1]), list[|list| - 1])
  }

  function Newest(list: History): (r: History)
    ensures |r| == if |list| <= MAX_MESSAGES then |list| else MAX_MESSAGES
  {
    if |list| <= MAX_MESSAGES then list else list[|list| - MAX_MESSAGES..]
  }

  function Merge(current: History, incoming: History): (r: History)
  {
    Newest(StableSort(Absorbed(Keyed(current), incoming)))
  }

  /** The merge as the program runs it: fill the map, fold the incoming copies in, sort, cut. */
  method MergeHistory(current: History, incoming: History) returns (r: History)
    ensures r == Merge(current, incoming)
  {
    var result: History := [];
    for i := 0 to |current|
      invariant result == Keyed(current[..i])
    {
      assert current[..i + 1][..i] == current[..i];
      result := Put(result, current[i]);
    }
    assert current[..|current|] == current;
    for i := 0 to |incoming|
      invariant result == Absorbed(Keyed(current), incoming[..i])
    {
      assert incoming[..i + 1][..i] == incoming[..i];
      var message := incoming[i];
      var existing := Lookup(result, message.id);
      if existing.None? {
        result := Put(result, message);
      } else {
        var merged := existing.value;
        if DeliveryRank(message.delivery) > DeliveryRank(existing.value.delivery) { merged := merged.(delivery := message.delivery); }
        if message.relayAccepted == Some(true) { merged := merged.(relayAccepted := Some(true)); }
        result := Put(result, merged);
      }
    }
    assert incoming[..|incoming|] == incoming;
    return Newest(StableSort(result));
  }

  // ---------- map facts ----------

  lemma {:induction false} PutLookup(list: History, m: Message, id: string)
    ensures Lookup(Put(list, m), id) == if id == m.id then Some(m) else Lookup(list, id)
    ensures |Put(list, m)| == |list| + if Lookup(list, m.id).Some? then 0 else 1
  {
    if list != [] && list[0].id != m.id {
      PutLookup(list[1..], m, id);
      assert ([list[0]] + Put(list[1..], m))[1..] == Put(list[1..], m);
    } else if list != [] {
      assert ([m] + list[1..])[1..] == list[1..];
    }
  }

  lemma {:induction false} PutDistinct(list: History, m: Message)
    requires Distinct(list)
    ensures Distinct(Put(list, m))
  {
    if list != [] && list[0].id != m.id {
      PutDistinct(list[1..], m);
      PutLookup(list[1..], m, list[0].id);
      assert ([list[0]] + Put(list[1..], m))[1..] == Put(list[1..], m);
    } else if list != [] {
      assert ([m] + list[1..])[1..] == list[1..];
    }
  }

  /** Putting back what is there changes nothing. */
  lemma {:induction false} PutSame(list: History, m: Message)
    requires Lookup(list, m.id) == Some(m)
    ensures Put(list, m) == list
  {
    if list[0].id != m.id { PutSame(list[1..], m); }
  }

  lemma {:induction false} KeyedDistinct(list: History)
    ensures Distinct(Keyed(list))
  {
    if list != [] {
      KeyedDistinct(list[..|list| - 1]);
      PutDistinct(Keyed(list[..|list| - 1]), list[|list| - 1]);
    }
  }

  lemma {:induction false} LookupSnoc(list: History, m: Message, id: string)
    ensures Lookup(list + [m], id) == if Lookup(list, id).Some? then Lookup(list, id) else if m.id == id then Some(m) else None
  {
    if list != [] {
      LookupSnoc(list[1..], m, id);
      assert (list + [m])[1..] == list[1..] + [m];
    }
  }

  lemma {:induction false} DistinctSnoc(list: History, m: Message)
    ensures Distinct(list + [m]) <==> Distinct(list) && Lookup(list, m.id).None?
  {
    if list != [] {
      DistinctSnoc(list[1..], m);
      LookupSnoc(list[1..], m, list[0].id);
      assert (list + [m])[1..] == list[1..] + [m];
    }
  }

  lemma {:induction false} PutAppends(list: History, m: Message)
    requires Lookup(list, m.id).None?
    ensures Put(list, m) == list + [m]
  {
    if list != [] { PutAppends(list[1..], m); }
  }

  /** A history without duplicate ids is its own map. */
  lemma {:induction false} KeyedSame(list: History)
    requires Distinct(list)
    ensures Keyed(list) == list
  {
    if list != [] {
      var front, m := list[..|list| - 1], list[|list| - 1];
      assert front + [m] == list;
      DistinctSnoc(front, m);
      KeyedSame(front);
      PutAppends(front, m);
    }
  }

  // ---------- sort facts ----------

  lemma {:induction false} InsertLookup(list: History, m: Message, id: string)
    requires Lookup(list, m.id).None?
    ensures Lookup(Insert(list, m), id) == if id == m.id then Some(m) else Lookup(list, id)
    ensures |Insert(list, m)| == |list| + 1
  {
    if list != [] && list[0].at <= m.at {
      InsertLookup(list[1..], m, id);
      assert ([list[0]] + Insert(list[1..], m))[1..] == Insert(list[1..], m);
    } else if list != [] {
      assert ([m] + list)[1..] == list;
    }
  }

  lemma {:induction false} InsertDistinct(list: History, m: Message)
    requires Distinct(list) && Lookup(list, m.id).None?
    ensures Distinct(Insert(list, m))
  {
    if list != [] && list[0].at <= m.at {
      InsertDistinct(list[1..], m);
      InsertLookup(list[1..], m, list[0].id);
      assert ([list[0]] + Insert(list[1..], m))[1..] == Insert(list[1..], m);
    } else if list != [] {
      assert ([m] + list)[1..] == list;
    }
  }

  predicate AtLeast(list: History, t: int)
  {
    forall i | 0 <= i < |list| :: t <= list[i].at
  }

  lemma {:induction false} InsertAtLeast(list: History, m: Message, t: int)
    requires AtLeast(list, t) && t <= m.at
    ensures AtLeast(Insert(list, m), t)
  {
    if list != [] && list[0].at <= m.at { InsertAtLeast(list[1..], m, t); }
  }

  lemma {:induction false} InsertOrdered(list: History, m: Message)
    requires Ordered(list)
    ensures Ordered(Insert(list, m))
  {
    if list != [] && list[0].at <= m.at {
      InsertOrdered(list[1..], m);
      InsertAtLeast(list[1..], m, list[0].at);
    }
  }

  /** Sorting moves messages only: the same ids find the same messages, in timestamp order. */
  lemma {:induction false} SortKeeps(list: History, id: string)
    requires Distinct(list)
    ensures Lookup(StableSort(list), id) == Lookup(list, id)
    ensures Distinct(StableSort(list)) && Ordered(StableSort(list)) && |StableSort(list)| == |list|
  {
    if list != [] {
      var front, m := list[..|list| - 1], list[|list| - 1];
      assert front + [m] == list;
      DistinctSnoc(front, m);
      LookupSnoc(front, m, id);
      SortKeeps(front, id);
      SortKeeps(front, m.id);
      InsertLookup(StableSort(front), m, id);
      InsertDistinct(StableSort(front), m);
      InsertOrdered(StableSort(front), m);
    }
  }

  lemma {:induction false} InsertAtEnd(list: History, m: Message)
    requires forall i | 0 <= i < |list| :: list[i].at <= m.at
    ensures Insert(list, m) == list + [m]
  {
    if list != [] { InsertAtEnd(list[1..], m); }
  }

  lemma {:induction false} SortOfOrdered(list: History)
    requires Ordered(list)
    ensures StableSort(list) == list
  {
    if list != [] {
      SortOfOrdered(list[..|list| - 1]);
      InsertAtEnd(list[..|list| - 1], list[|list| - 1]);
    }
  }

  /** The messages with one timestamp, in their order. */
  function SameTime(list: History, t: int): (r: History)
    ensures forall i | 0 <= i < |r| :: r[i].at == t
  {
    if list == [] then [] else (if list[0].at == t then [list[0]] else []) + SameTime(list[1..], t)
  }

  lemma {:induction false} SameTimeSnoc(list: History, m: Message, t: int)
    ensures SameTime(list + [m], t) == SameTime(list, t) + Only(m, t)
  {
    if list != [] {
      SameTimeSnoc(list[1..], m, t);
      assert (list + [m])[1..] == list[1..] + [m];
    }
  }

  lemma {:induction false} NoneAtTime(list: History, t: int)
    requires forall i | 0 <= i < |list| :: list[i].at != t
    ensures SameTime(list, t) == []
  {
    if list != [] { NoneAtTime(list[1..], t); }
  }

  lemma SameTimeCons(m: Message, list: History, t: int)
    ensures SameTime([m] + list, t) == (if m.at == t then [m] else []) + SameTime(list, t)
  {
    assert ([m] + list)[1..] == list;
  }

  /** The messages with timestamp `t` among at most one. */
  function Only(m: Message, t: int): (r: History)
  {
    if m.at == t then [m] else []
  }

  lemma BehindHead(head: Message, rest: History, more: History, m: Message, t: int)
    requires SameTime(more, t) == SameTime(rest, t) + Only(m, t)
    ensures SameTime([head] + more, t) == SameTime([head] + rest, t) + Only(m, t)
  {
    SameTimeCons(head, rest, t);
    SameTimeCons(head, more, t);
    hide SameTime, Only;
  }

  lemma InFront(list: History, m: Message, t: int)
    requires forall i | 0 <= i < |list| :: m.at < list[i].at
    ensures SameTime([m] + list, t) == SameTime(list, t) + Only(m, t)
  {
    SameTimeCons(m, list, t);
    if m.at == t { NoneAtTime(list, t); }
    hide SameTime;
  }

  lemma {:induction false} InsertSameTime(list: History, m: Message, t: int)
    requires Ordered(list)
    ensures SameTime(Insert(list, m), t) == SameTime(list, t) + Only(m, t)
  {
    hide SameTime, Only;
    if list == [] {
      InFront([], m, t);
      assert [m] + [] == [m];
    } else if list[0].at <= m.at {
      TailOrdered(list);
      hide Ordered;
      InsertSameTime(list[1..], m, t);
      BehindHead(list[0], list[1..], Insert(list[1..], m), m, t);
      assert [list[0]] + list[1..] == list;
    } else {
      InFront(list, m, t);
    }
  }

  /** Stability: messages with the same timestamp keep their order. */
  lemma {:induction false} SortIsStable(list: History, t: int)
    ensures Ordered(StableSort(list)) && SameTime(StableSort(list), t) == SameTime(list, t)
  {
    if list != [] {
      hide Insert, SameTime, Only;
      var front, m := list[..|list| - 1], list[|list| - 1];
      SortIsStable(front, t);
      InsertOrdered(StableSort(front), m);
      InsertSameTime(StableSort(front), m, t);
      assert front + [m] == list;
      SameTimeSnoc(front, m, t);
    } else {
      assert StableSort(list) == [];
    }
  }

  lemma TailTimes(a: History, b: History, t: int)
    requires a != [] && b != [] && a[0] == b[0] && SameTime(a, t) == SameTime(b, t)
    ensures SameTime(a[1..], t) == SameTime(b[1..], t)
  {
    var head := if a[0].at == t then [a[0]] else [];
    ConcatSplits(head, SameTime(a[1..], t), head, SameTime(b[1..], t));
  }

  /** Whatever stable sort the host runs, its result is this one. */
  lemma {:induction false} StableSortIsUnique(a: History, b: History)
    requires Ordered(a) && Ordered(b) && forall t :: SameTime(a, t) == SameTime(b, t)
    ensures a == b
  {
    hide Ordered;
    BothEmpty(a, b);
    if a != [] {
      FirstTimes(a, b);
      TailOrdered(a);
      TailOrdered(b);
      forall t ensures SameTime(a[1..], t) == SameTime(b[1..], t) { TailTimes(a, b, t); }
      hide SameTime;
      StableSortIsUnique(a[1..], b[1..]);
      assert a == [a[0]] + a[1..] && b == [b[0]] + b[1..];
    }
  }

  lemma TailOrdered(a: History)
    requires a != [] && Ordered(a)
    ensures Ordered(a[1..])
  {
  }

  lemma BothEmpty(a: History, b: History)
    requires forall t :: SameTime(a, t) == SameTime(b, t)
    ensures a == [] <==> b == []
  {
    if a != [] { assert SameTime(a, a[0].at)[0] == a[0]; }
    if b != [] { assert SameTime(b, b[0].at)[0] == b[0]; }
  }

  lemma FirstTimes(a: History, b: History)
    requires a != [] && b != [] && Ordered(a) && Ordered(b)
    requires SameTime(a, a[0].at) == SameTime(b, a[0].at) && SameTime(a, b[0].at) == SameTime(b, b[0].at)
    ensures a[0] == b[0]
  {
    if a[0].at < b[0].at { NoneAtTime(b, a[0].at); }
    if b[0].at < a[0].at { NoneAtTime(a, b[0].at); }
    assert SameTime(a, a[0].at)[0] == a[0] && SameTime(b, b[0].at)[0] == b[0];
  }

  // ---------- the merge ----------

  lemma AbsorbLookup(list: History, m: Message, id: string)
    ensures Lookup(Absorb(list, m), id) ==
      if id != m.id then Lookup(list, id)
      else if Lookup(list, id).None? then Some(m) else Some(Raised(Lookup(list, id).value, m))
    ensures Distinct(list) ==> Distinct(Absorb(list, m))
  {
    var n := if Lookup(list, m.id).None? then m else Raised(Lookup(list, m.id).value, m);
    PutLookup(list, n, id);
    if Distinct(list) { PutDistinct(list, n); }
  }

  /** The rank a history gives an id, and the highest rank a list of copies gives it; -1 when it has none. */
  function RankIn(list: History, id: string): (rank: int)
  {
    if Lookup(list, id).None? then -1 else DeliveryRank(Lookup(list, id).value.delivery)
  }

  function MaxRank(copies: History, id: string): (rank: int)
  {
    if copies == [] then -1
    else
      var m := copies[|copies| - 1];
      Max(MaxRank(copies[..|copies| - 1], id), if m.id == id then DeliveryRank(m.delivery) else -1)
  }

  predicate SameBody(a: Message, b: Message)
  {
    b == a.(delivery := b.delivery, relayAccepted := b.relayAccepted)
  }

  /** A later state of a message: same content, no lower rank, no relay acceptance taken back. */
  predicate Later(a: Message, b: Message)
  {
    && SameBody(a, b) && DeliveryRank(a.delivery) <= DeliveryRank(b.delivery)
    && (a.relayAccepted == Some(true) ==> b.relayAccepted == Some(true))
  }

  /** Absorbing this copy again would change nothing. */
  predicate Settled(list: History, m: Message)
  {
    Lookup(list, m.id).Some? && Raised(Lookup(list, m.id).value, m) == Lookup(list, m.id).value
  }

  lemma {:induction false} AbsorbedLookup(list: History, incoming: History, id: string)
    ensures var r := Absorbed(list, incoming);
      && RankIn(r, id) == Max(RankIn(list, id), MaxRank(incoming, id))
      && (Lookup(list, id).Some? ==> Lookup(r, id).Some? && Later(Lookup(list, id).value, Lookup(r, id).value))
      && (Distinct(list) ==> Distinct(r))
  {
    if incoming != [] {
      var front, m := incoming[..|incoming| - 1], incoming[|incoming| - 1];
      AbsorbedLookup(list, front, id);
      AbsorbLookup(Absorbed(list, front), m, id);
    }
  }

  lemma {:induction false} AllSettled(list: History, incoming: History, k: nat)
    requires k < |incoming|
    ensures Settled(Absorbed(list, incoming), incoming[k])
  {
    var front, m := incoming[..|incoming| - 1], incoming[|incoming| - 1];
    AbsorbLookup(Absorbed(list, front), m, incoming[k].id);
    if k < |front| {
      AllSettled(list, front, k);
      assert front[k] == incoming[k];
    }
  }

  lemma {:induction false} AbsorbedSettled(list: History, incoming: History)
    requires forall k | 0 <= k < |incoming| :: Settled(list, incoming[k])
    ensures Absorbed(list, incoming) == list
  {
    if incoming != [] {
      var front, m := incoming[..|incoming| - 1], incoming[|incoming| - 1];
      assert forall k | 0 <= k < |front| :: front[k] == incoming[k];
      AbsorbedSettled(list, front);
      assert Settled(list, m);
      PutSame(list, Lookup(list, m.id).value);
    }
  }

  /** While the cap is not reached, a merge only reorders the absorbed map. */
  lemma MergeLookup(current: History, incoming: History, id: string)
    requires |Absorbed(Keyed(current), incoming)| <= MAX_MESSAGES
    ensures var r := Merge(current, incoming);
      && Lookup(r, id) == Lookup(Absorbed(Keyed(current), incoming), id)
      && Distinct(r) && Ordered(r) && |r| <= MAX_MESSAGES
  {
    hide Ordered, Distinct, Lookup, Absorbed, Keyed, StableSort;
    KeyedDistinct(current);
    AbsorbedLookup(Keyed(current), incoming, id);
    SortKeeps(Absorbed(Keyed(current), incoming), id);
  }

  /**
   * A merge loses no message and duplicates none; each rank becomes the highest of the stored and the incoming
   * ones, content stays, and the result is in timestamp order.
   */
  lemma MergeIsLossless(current: History, incoming: History, id: string)
    requires |Absorbed(Keyed(current), incoming)| <= MAX_MESSAGES
    ensures var r := Merge(current, incoming);
      && Distinct(r) && Ordered(r)
      && RankIn(r, id) == Max(RankIn(Keyed(current), id), MaxRank(incoming, id))
      && (Lookup(Keyed(current), id).Some? ==> Lookup(r, id).Some? && Later(Lookup(Keyed(current), id).value, Lookup(r, id).value))
  {
    hide Distinct, Lookup, Absorbed, Keyed, MaxRank;
    MergeLookup(current, incoming, id);
    AbsorbedLookup(Keyed(current), incoming, id);
  }

  /** Merging the same input again changes nothing, not even the order. */
  lemma MergeIsIdempotent(current: History, incoming: History)
    requires |Absorbed(Keyed(current), incoming)| <= MAX_MESSAGES
    ensures Merge(Merge(current, incoming), incoming) == Merge(current, incoming)
  {
    hide Distinct, Lookup, Absorbed, Keyed, StableSort;
    var r := Merge(current, incoming);
    MergeLookup(current, incoming, "");
    KeyedSame(r);
    forall k | 0 <= k < |incoming| ensures Settled(r, incoming[k]) {
      MergeLookup(current, incoming, incoming[k].id);
      AllSettled(Keyed(current), incoming, k);
    }
    AbsorbedSettled(r, incoming);
    SortOfOrdered(r);
  }

  // ---------- concurrent writers ----------

  /** The stored record: none, one that does not decode, or a history. */
  datatype Record = Absent | Undecodable(bytes: string) | Saved(messages: History)

  datatype Failure = InvalidHistory | IdentityConflict | ChangedTooOften

  datatype Commit = Write(incoming: History) | Accept(message: Message)

  function Decoded(r: Record): (h: Result<History, Failure>)
  {
    match r
    case Absent => Ok([])
    case Undecodable(_) => Err(InvalidHistory)
    case Saved(messages) => if |messages| > MAX_MESSAGES then Err(InvalidHistory) else Ok(messages)
  }

  /** writeMessages merges; prepareMessageAcceptance appends, or keeps the record when it holds the same message. */
  function Proposed(r: Record, c: Commit): (n: Result<Record, Failure>)
  {
    var h := Decoded(r);
    if h.Err? then Err(h.error)
    else match c
      case Write(incoming) => Ok(Saved(Merge(h.value, incoming)))
      case Accept(m) =>
        match Lookup(h.value, m.id)
        case Some(e) => if e.sender != m.sender || e.text != m.text || e.kind != m.kind then Err(IdentityConflict) else Ok(r)
        case None => Ok(Saved(Newest(h.value + [m])))
  }

  function Step(r: Record, c: Commit): (n: Record)
  {
    var p := Proposed(r, c);
    if p.Ok? then p.value else r
  }

  function Applied(r: Record, commits: seq<Commit>): (n: Record)
  {
    if commits == [] then r else Step(Applied(r, commits[..|commits| - 1]), commits[|commits| - 1])
  }

  function Ids(list: History): (ids: set<string>)
    ensures forall id :: id in ids <==> Lookup(list, id).Some?
  {
    if list == [] then {} else {list[0].id} + Ids(list[1..])
  }

  lemma {:induction false} DistinctCount(list: History, seen: set<string>)
    requires Distinct(list) && Ids(list) <= seen
    ensures |list| <= |seen|
  {
    if list != [] {
      assert list[0].id in Ids(list);
      DistinctCount(list[1..], seen - {list[0].id});
    }
  }

  /** Every id a commit brings has been counted. */
  predicate Counts(c: Commit, seen: set<string>)
  {
    match c
    case Write(incoming) => forall k | 0 <= k < |incoming| :: incoming[k].id in seen
    case Accept(m) => m.id in seen
  }

  lemma {:induction false} AbsorbedIds(list: History, incoming: History, seen: set<string>)
    requires Ids(list) <= seen && forall k | 0 <= k < |incoming| :: incoming[k].id in seen
    ensures Ids(Absorbed(list, incoming)) <= seen
  {
    if incoming != [] {
      var front, m := incoming[..|incoming| - 1], incoming[|incoming| - 1];
      assert forall k | 0 <= k < |front| :: front[k] == incoming[k];
      AbsorbedIds(list, front, seen);
      forall id | id in Ids(Absorbed(list, incoming)) ensures id in seen { AbsorbLookup(Absorbed(list, front), m, id); }
    }
  }

  /** A record that decodes to distinct ids among those seen. */
  predicate Clean(r: Record, seen: set<string>)
  {
    Decoded(r).Ok? && Distinct(Decoded(r).value) && Ids(Decoded(r).value) <= seen
  }

  /** A message the earlier record held is in the later one, in a later state. */
  predicate Survives(r: Record, n: Record, id: string)
    requires Decoded(r).Ok? && Decoded(n).Ok?
  {
    Lookup(Decoded(r).value, id).Some? ==>
      && Lookup(Decoded(n).value, id).Some?
      && Later(Lookup(Decoded(r).value, id).value, Lookup(Decoded(n).value, id).value)
  }

  lemma WriteSurvives(r: Record, incoming: History, seen: set<string>, id: string)
    requires Clean(r, seen) && |seen| <= MAX_MESSAGES && Counts(Write(incoming), seen)
    ensures Clean(Step(r, Write(incoming)), seen) && Survives(r, Step(r, Write(incoming)), id)
  {
    hide Distinct, Lookup, Absorbed, Keyed, Merge, Ids, Later;
    var h := Decoded(r).value;
    KeyedSame(h);
    AbsorbedIds(h, incoming, seen);
    AbsorbedLookup(h, incoming, id);
    DistinctCount(Absorbed(h, incoming), seen);
    MergeLookup(h, incoming, id);
    forall other | other in Ids(Merge(h, incoming)) ensures other in seen { MergeLookup(h, incoming, other); }
  }

  lemma AcceptSurvives(r: Record, m: Message, seen: set<string>, id: string)
    requires Clean(r, seen) && |seen| <= MAX_MESSAGES && Counts(Accept(m), seen)
    ensures Clean(Step(r, Accept(m)), seen) && Survives(r, Step(r, Accept(m)), id)
    ensures Proposed(r, Accept(m)).Ok? ==> Lookup(Decoded(Step(r, Accept(m))).value, m.id).Some?
  {
    hide Distinct, Lookup, Ids;
    var h := Decoded(r).value;
    DistinctSnoc(h, m);
    LookupSnoc(h, m, id);
    LookupSnoc(h, m, m.id);
    forall other | other in Ids(h + [m]) ensures other in seen { LookupSnoc(h, m, other); }
    if Lookup(h, m.id).None? { DistinctCount(h + [m], seen); }
  }

  /**
   * While at most 2000 distinct ids have been seen, no interleaving of committed writes and acceptances loses or
   * duplicates a message, lowers a rank or changes content.
   */
  lemma {:induction false} NothingIsLost(r: Record, commits: seq<Commit>, seen: set<string>, id: string)
    requires Clean(r, seen) && |seen| <= MAX_MESSAGES && forall k | 0 <= k < |commits| :: Counts(commits[k], seen)
    ensures Clean(Applied(r, commits), seen) && Survives(r, Applied(r, commits), id)
  {
    hide Distinct, Lookup, Ids, Step, Counts;
    if commits == [] {
      assert Survives(r, r, id);
    } else {
      var front, c := commits[..|commits| - 1], commits[|commits| - 1];
      assert forall k | 0 <= k < |front| :: front[k] == commits[k];
      NothingIsLost(r, front, seen, id);
      if c.Write? { WriteSurvives(Applied(r, front), c.incoming, seen, id); } else { AcceptSurvives(Applied(r, front), c.message, seen, id); }
    }
  }

  // ---------- the compare-and-swap loops ----------

  lemma {:induction false} AppliedTwice(r: Record, a: seq<Commit>, b: seq<Commit>)
    ensures Applied(Applied(r, a), b) == Applied(r, a + b)
  {
    hide Step;
    if b == [] {
      assert a + b == a;
    } else {
      AppliedTwice(r, a, b[..|b| - 1]);
      assert (a + b)[..|a + b| - 1] == a + b[..|b| - 1];
    }
  }

  /** What others commit before the read and between the read and the swap. */
  datatype Moment = Moment(beforeRead: seq<Commit>, beforeSwap: seq<Commit>)

  class MessageStorage {
    var saved: Record

    constructor (r: Record)
      ensures saved == r
    {
      saved := r;
    }

    method Interfere(others: seq<Commit>)
      modifies this
      ensures saved == Applied(old(saved), others)
    {
      ghost var was := saved;
      for i := 0 to |others|
        invariant saved == Applied(was, others[..i])
      {
        assert others[..i + 1][..i] == others[..i];
        saved := Step(saved, others[i]);
      }
      assert others[..|others|] == others;
    }

    method CompareAndSwap(expected: Record, next: Record) returns (ok: bool)
      modifies this
      ensures ok <==> old(saved) == expected
      ensures saved == if ok then next else old(saved)
    {
      ok := saved == expected;
      if ok { saved := next; }
    }

    /** Read, compute, swap: a commit replaces the very record it was computed from. */
    method TryCommit(c: Commit, m: Moment) returns (r: Result<bool, Failure>, ghost others: seq<Commit>)
      modifies this
      ensures r == Ok(true) ==> Proposed(Applied(old(saved), others), c) == Ok(saved)
      ensures r != Ok(true) ==> saved == Applied(old(saved), others)
      ensures r.Err? ==> Proposed(Applied(old(saved), m.beforeRead), c) == Err(r.error)
    {
      hide Proposed, Step;
      others := m.beforeRead + m.beforeSwap;
      AppliedTwice(saved, m.beforeRead, m.beforeSwap);
      Interfere(m.beforeRead);
      var expected := saved;
      var next := Proposed(expected, c);
      Interfere(m.beforeSwap);
      if next.Err? { return Err(next.error), others; }
      var ok := CompareAndSwap(expected, next.value);
      return Ok(ok), others;
    }

    /** writeMessages: up to eight attempts; it commits exactly one merge or nothing. */
    method WriteMessages(incoming: History, moments: seq<Moment>) returns (r: Result<(), Failure>, ghost others: seq<Commit>)
      requires |moments| == WRITE_ATTEMPTS
      modifies this
      ensures r.Ok? ==> Proposed(Applied(old(saved), others), Write(incoming)) == Ok(saved)
      ensures r.Err? ==> saved == Applied(old(saved), others)
    {
      hide Proposed, Step;
      others := [];
      for attempt := 0 to WRITE_ATTEMPTS
        invariant saved == Applied(old(saved), others)
      {
        ghost var before := others;
        var outcome, more := TryCommit(Write(incoming), moments[attempt]);
        others := before + more;
        AppliedTwice(old(saved), before, more);
        if outcome.Err? { return Err(outcome.error), others; }
        if outcome.value { return Ok(()), others; }
      }
      return Err(ChangedTooOften), others;
    }
  }
}

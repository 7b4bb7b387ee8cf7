/**
 * Rows of the offline mailbox and the process-local store that holds them in an array
 * (backend/db/inMemDB.ts). The store is described by its contents, a map from primary key to row, so that
 * the database form in MailboxSystem speaks of the same row changes.
 */
module Mailbox {
  import opened Common

  datatype RowState = Active | Rejected

  datatype Row = Row(
    pk: nat, id: string, dedupeKey: string, channel: string, mailbox: string, sender: string,
    timestamp: int, expiresAt: int, state: RowState, envelope: Option<string>,
    claimedUntil: Option<int>, claimId: Option<string>, deliveryAttempts: nat, slot: Option<nat>, device: Option<string>,
    terminalReason: Option<string>, terminalAt: Option<int>, terminalClaimId: Option<string>)

  /** What a sender hands in; `device` is the sending device, where that is known. */
  datatype Letter = Letter(id: string, dedupeKey: string, channel: string, mailbox: string, sender: string,
                           timestamp: int, expiresAt: int, envelope: string, device: Option<string>)

  function NewRow(pk: nat, l: Letter, slot: Option<nat>): (r: Row)
  {
    Row(pk, l.id, l.dedupeKey, l.channel, l.mailbox, l.sender, l.timestamp, l.expiresAt, Active, Some(l.envelope),
        None, None, 0, slot, l.device, None, None, None)
  }

  /** A terminal marker for a letter that was never stored. */
  function TerminalRow(pk: nat, l: Letter, reason: string, at: int): (r: Row)
  {
    Row(pk, l.id, l.dedupeKey, l.channel, l.mailbox, l.sender, l.timestamp, l.expiresAt, Rejected, None,
        Some(l.expiresAt), None, 0, None, None, Some(reason), Some(at), None)
  }

  function Claimed(r: Row, lease: int, claimId: string): (c: Row)
  {
    r.(claimedUntil := Some(lease), claimId := Some(claimId), deliveryAttempts := r.deliveryAttempts + 1)
  }

  /** Terminal rows lose their ciphertext, their claim and their slot, and look leased until they expire. */
  function Terminated(r: Row, reason: string, at: int, claim: Option<string>): (t: Row)
  {
    r.(state := Rejected, terminalReason := Some(reason), terminalAt := Some(at), terminalClaimId := claim,
       claimedUntil := Some(r.expiresAt), envelope := None, claimId := None, slot := None)
  }

  predicate In(r: Row, channel: string, mailbox: string)
  {
    r.channel == channel && r.mailbox == mailbox
  }

  predicate SameBox(a: Row, b: Row)
  {
    a.channel == b.channel && a.mailbox == b.mailbox
  }

  /** Delivery order: timestamp, then insertion. Primary keys are unique, so the id never decides. */
  predicate Before(a: Row, b: Row)
  {
    a.timestamp < b.timestamp || (a.timestamp == b.timestamp && a.pk < b.pk)
  }

  predicate Pending(r: Row, channel: string, mailbox: string, now: int)
  {
    r.state == Active && In(r, channel, mailbox) && r.expiresAt > now
  }

  predicate Leased(r: Row, now: int)
  {
    r.claimedUntil.Some? && r.claimedUntil.value > now
  }

  type Contents = map<nat, Row>

  /** `pk` is the first pending row of the mailbox in delivery order. */
  predicate IsHead(m: Contents, channel: string, mailbox: string, now: int, pk: nat)
  {
    && pk in m && Pending(m[pk], channel, mailbox, now)
    && forall q | q in m && q != pk && Pending(m[q], channel, mailbox, now) :: Before(m[pk], m[q])
  }

  predicate NonePending(m: Contents, channel: string, mailbox: string, now: int)
  {
    forall q | q in m :: !Pending(m[q], channel, mailbox, now)
  }

  function Unexpired(m: Contents, now: int): (u: Contents)
  {
    map q | q in m && m[q].expiresAt > now :: m[q]
  }

  function ActiveKeys(m: Contents, channel: string, mailbox: string): (s: set<nat>)
  {
    set q | q in m && m[q].state == Active && In(m[q], channel, mailbox)
  }

  // ---------- the array store ----------

  predicate KeysOk(rows: seq<Row>, pk: nat)
  {
    && (forall i | 0 <= i < |rows| :: rows[i].pk < pk)
    && (forall i, j | 0 <= i < j < |rows| :: rows[i].pk != rows[j].pk)
  }

  predicate HasKey(rows: seq<Row>, q: nat)
  {
    exists i | 0 <= i < |rows| :: rows[i].pk == q
  }

  function ContentsOf(rows: seq<Row>, pk: nat): (m: Contents)
    requires KeysOk(rows, pk)
    ensures forall i | 0 <= i < |rows| :: rows[i].pk in m && m[rows[i].pk] == rows[i]
    ensures forall q | q in m :: HasKey(rows, q)
    ensures forall q | q in m :: m[q].pk == q
  {
    map i | 0 <= i < |rows| :: rows[i].pk := rows[i]
  }

  /** The contents are the only map that holds exactly the rows under their keys. */
  lemma ContentsUnique(rows: seq<Row>, pk: nat, m: Contents)
    requires KeysOk(rows, pk)
    requires forall i | 0 <= i < |rows| :: rows[i].pk in m && m[rows[i].pk] == rows[i]
    requires forall q | q in m :: HasKey(rows, q)
    ensures ContentsOf(rows, pk) == m
  {
    var c := ContentsOf(rows, pk);
    forall q | q in m ensures q in c && c[q] == m[q] {
      var i :| 0 <= i < |rows| && rows[i].pk == q;
    }
    forall q | q in c ensures q in m {
      var i :| 0 <= i < |rows| && rows[i].pk == q;
    }
  }

  lemma PushContents(rows: seq<Row>, pk: nat, row: Row)
    requires KeysOk(rows, pk) && row.pk == pk
    ensures KeysOk(rows + [row], pk + 1)
    ensures ContentsOf(rows + [row], pk + 1) == ContentsOf(rows, pk)[pk := row]
  {
    hide ContentsOf;
    var more, c := rows + [row], ContentsOf(rows, pk);
    forall q | q in c[pk := row] ensures HasKey(more, q) {
      if q == pk {
        assert more[|rows|].pk == q;
      } else {
        var k :| 0 <= k < |rows| && rows[k].pk == q;
        assert more[k].pk == q;
      }
    }
    ContentsUnique(more, pk + 1, c[pk := row]);
  }

  lemma SetKeys(rows: seq<Row>, pk: nat, i: nat, row: Row)
    requires KeysOk(rows, pk) && i < |rows| && row.pk == rows[i].pk
    ensures KeysOk(rows[i := row], pk)
    ensures forall k | 0 <= k < |rows| :: rows[i := row][k].pk == rows[k].pk
  {
  }

  lemma SetContents(rows: seq<Row>, pk: nat, i: nat, row: Row)
    requires KeysOk(rows, pk) && i < |rows| && row.pk == rows[i].pk
    ensures KeysOk(rows[i := row], pk)
    ensures ContentsOf(rows[i := row], pk) == ContentsOf(rows, pk)[row.pk := row]
  {
    SetKeys(rows, pk, i, row);
    hide ContentsOf, KeysOk;
    var changed, c := rows[i := row], ContentsOf(rows, pk);
    forall q | q in c[row.pk := row] ensures HasKey(changed, q) {
      var k :| 0 <= k < |rows| && rows[k].pk == q;
      assert changed[k].pk == q;
    }
    ContentsUnique(changed, pk, c[row.pk := row]);
  }

  function Without(rows: seq<Row>, i: nat): (rest: seq<Row>)
    requires i < |rows|
    ensures |rest| == |rows| - 1
    ensures forall k | 0 <= k < |rest| :: rest[k] == rows[if k < i then k else k + 1]
  {
    rows[..i] + rows[i + 1..]
  }

  lemma WithoutKeys(rows: seq<Row>, pk: nat, i: nat)
    requires KeysOk(rows, pk) && i < |rows|
    ensures KeysOk(Without(rows, i), pk)
  {
    hide Without;
    var rest := Without(rows, i);
    forall j, k | 0 <= j < k < |rest| ensures rest[j].pk != rest[k].pk {
      assert rows[if j < i then j else j + 1].pk != rows[if k < i then k else k + 1].pk;
    }
  }

  lemma WithoutHas(rows: seq<Row>, pk: nat, i: nat, q: nat)
    requires KeysOk(rows, pk) && i < |rows|
    requires HasKey(rows, q) && q != rows[i].pk
    ensures HasKey(Without(rows, i), q)
  {
    hide Without;
    var k :| 0 <= k < |rows| && rows[k].pk == q;
    var j := if k < i then k else k - 1;
    assert Without(rows, i)[j].pk == q;
  }

  lemma RemoveContents(rows: seq<Row>, pk: nat, i: nat)
    requires KeysOk(rows, pk) && i < |rows|
    ensures KeysOk(Without(rows, i), pk)
    ensures ContentsOf(Without(rows, i), pk) == ContentsOf(rows, pk) - {rows[i].pk}
  {
    hide Without, ContentsOf, HasKey;
    WithoutKeys(rows, pk, i);
    var rest, c := Without(rows, i), ContentsOf(rows, pk);
    var m := c - {rows[i].pk};
    forall q | q in m ensures HasKey(rest, q) { WithoutHas(rows, pk, i, q); }
    forall k | 0 <= k < |rest| ensures rest[k].pk in m && m[rest[k].pk] == rest[k] {
      var j := if k < i then k else k + 1;
      assert rest[k] == rows[j] && rows[j].pk != rows[i].pk;
    }
    ContentsUnique(rest, pk, m);
  }

  function Retained(rows: seq<Row>, now: int): (r: seq<Row>)
    ensures |r| <= |rows|
  {
    if rows == [] then []
    else Retained(rows[..|rows| - 1], now) + if rows[|rows| - 1].expiresAt > now then [rows[|rows| - 1]] else []
  }

  lemma {:induction false} RetainedRows(rows: seq<Row>, pk: nat, now: int)
    requires KeysOk(rows, pk)
    ensures KeysOk(Retained(rows, now), pk)
    ensures forall r :: r in Retained(rows, now) <==> r in rows && r.expiresAt > now
  {
    if rows != [] {
      var n := |rows| - 1;
      RetainedRows(rows[..n], pk, now);
      assert rows == rows[..n] + [rows[n]];
      var front := Retained(rows[..n], now);
      forall k | 0 <= k < |front| ensures front[k].pk != rows[n].pk {
        assert front[k] in rows[..n];
      }
    }
  }

  lemma FilterContents(rows: seq<Row>, pk: nat, now: int, retained: seq<Row>)
    requires KeysOk(rows, pk) && KeysOk(retained, pk)
    requires forall r :: r in retained <==> r in rows && r.expiresAt > now
    ensures ContentsOf(retained, pk) == Unexpired(ContentsOf(rows, pk), now)
  {
    hide ContentsOf;
    var c := ContentsOf(rows, pk);
    var m := Unexpired(c, now);
    forall i | 0 <= i < |retained| ensures retained[i].pk in m && m[retained[i].pk] == retained[i] {
      assert retained[i] in retained;
      var k :| 0 <= k < |rows| && rows[k] == retained[i];
    }
    forall q | q in m ensures HasKey(retained, q) {
      var j :| 0 <= j < |rows| && rows[j].pk == q;
      assert rows[j] in retained;
      var k :| 0 <= k < |retained| && retained[k] == rows[j];
    }
    ContentsUnique(retained, pk, m);
  }

  predicate AckMatches(r: Row, id: string, channel: string, mailbox: string, claimId: Option<string>)
  {
    r.id == id && In(r, channel, mailbox) && r.claimId == claimId
  }

  datatype RejectionResult = RejectedNow | Duplicate | Stale

  class MailboxStore {
    var rows: seq<Row>
    var pk: nat

    ghost predicate Valid()
      reads this
    {
      KeysOk(rows, pk)
    }

    ghost function Contents(): (m: Contents)
      requires Valid()
      reads this
    {
      ContentsOf(rows, pk)
    }

    constructor ()
      ensures Valid() && Contents() == map[] && pk == 0
    {
      rows := [];
      pk := 0;
    }

    method FindDedupe(key: string) returns (r: Option<nat>)
      ensures r.Some? ==> r.value < |rows| && rows[r.value].dedupeKey == key
      ensures r.None? ==> forall i | 0 <= i < |rows| :: rows[i].dedupeKey != key
    {
      for i := 0 to |rows|
        invariant forall k | 0 <= k < i :: rows[k].dedupeKey != key
      {
        if rows[i].dedupeKey == key { return Some(i); }
      }
      return None;
    }

    method Push(row: Row)
      requires Valid() && row.pk == pk
      modifies this
      ensures Valid() && pk == old(pk) + 1
      ensures Contents() == old(Contents())[old(pk) := row]
    {
      PushContents(rows, pk, row);
      rows := rows + [row];
      pk := pk + 1;
    }

    method SetRow(i: nat, row: Row)
      requires Valid() && i < |rows| && row.pk == rows[i].pk
      modifies this`rows
      ensures Valid() && Contents() == old(Contents())[row.pk := row]
    {
      SetContents(rows, pk, i, row);
      rows := rows[i := row];
    }

    /** Returns the row already stored under the dedupe key, or stores a new active row. */
    method Insert(l: Letter) returns (stored: Row)
      requires Valid()
      modifies this
      ensures Valid()
      ensures
        if exists q :: q in old(Contents()) && old(Contents())[q].dedupeKey == l.dedupeKey
        then Contents() == old(Contents()) && stored in Contents().Values && stored.dedupeKey == l.dedupeKey
        else stored == NewRow(old(pk), l, None) && Contents() == old(Contents())[old(pk) := stored]
    {
      var existing := FindDedupe(l.dedupeKey);
      if existing.Some? {
        stored := rows[existing.value];
        assert stored.pk in Contents() && Contents()[stored.pk] == stored;
        return;
      }
      stored := NewRow(pk, l, None);
      Push(stored);
    }

    /** The first pending row, by scanning for the least in delivery order. */
    method NextActive(channel: string, mailbox: string, now: int) returns (r: Option<nat>)
      requires Valid()
      ensures r.Some? ==> r.value < |rows| && IsHead(Contents(), channel, mailbox, now, rows[r.value].pk)
      ensures r.None? ==> NonePending(Contents(), channel, mailbox, now)
    {
      r := None;
      for i := 0 to |rows|
        invariant r.None? ==> forall k | 0 <= k < i :: !Pending(rows[k], channel, mailbox, now)
        invariant r.Some? ==> r.value < i && Pending(rows[r.value], channel, mailbox, now)
        invariant r.Some? ==> forall k | 0 <= k < i && k != r.value && Pending(rows[k], channel, mailbox, now) :: Before(rows[r.value], rows[k])
      {
        if Pending(rows[i], channel, mailbox, now) && (r.None? || Before(rows[i], rows[r.value])) { r := Some(i); }
      }
    }

    /**
     * Claims the head and nothing but the head: a leased head blocks its mailbox, so later rows are never
     * claimed past it.
     */
    method Claim(channel: string, mailbox: string, lease: int, claimId: string, now: int) returns (r: Option<Row>)
      requires Valid()
      modifies this`rows
      ensures Valid()
      ensures match r
        case Some(row) =>
          && IsHead(old(Contents()), channel, mailbox, now, row.pk) && !Leased(old(Contents())[row.pk], now)
          && row == Claimed(old(Contents())[row.pk], lease, claimId)
          && Contents() == old(Contents())[row.pk := row]
        case None =>
          && Contents() == old(Contents())
          && (NonePending(Contents(), channel, mailbox, now)
              || exists q :: IsHead(Contents(), channel, mailbox, now, q) && Leased(Contents()[q], now))
    {
      var head := NextActive(channel, mailbox, now);
      if head.None? { return None; }
      var i := head.value;
      if rows[i].claimedUntil.Some? && rows[i].claimedUntil.value > now {
        assert IsHead(Contents(), channel, mailbox, now, rows[i].pk);
        return None;
      }
      var row := Claimed(rows[i], lease, claimId);
      SetRow(i, row);
      return Some(row);
    }

    method RemoveAt(i: nat)
      requires Valid() && i < |rows|
      modifies this`rows
      ensures Valid() && Contents() == old(Contents()) - {old(rows)[i].pk}
    {
      RemoveContents(rows, pk, i);
      rows := Without(rows, i);
    }

    /** Deletes a row only for its own claim id, or without one only if it holds none. */
    method Ack(id: string, channel: string, mailbox: string, claimId: Option<string>) returns (removed: bool)
      requires Valid()
      modifies this`rows
      ensures Valid()
      ensures removed ==>
        exists q :: q in old(Contents()) && AckMatches(old(Contents())[q], id, channel, mailbox, claimId) && Contents() == old(Contents()) - {q}
      ensures !removed ==>
        Contents() == old(Contents()) && forall q | q in Contents() :: !AckMatches(Contents()[q], id, channel, mailbox, claimId)
    {
      for i := 0 to |rows|
        invariant rows == old(rows) && Contents() == old(Contents())
        invariant forall k | 0 <= k < i :: !AckMatches(rows[k], id, channel, mailbox, claimId)
      {
        if AckMatches(rows[i], id, channel, mailbox, claimId) {
          ghost var gone := rows[i].pk;
          assert gone in old(Contents()) && AckMatches(old(Contents())[gone], id, channel, mailbox, claimId);
          RemoveAt(i);
          return true;
        }
      }
      return false;
    }

    /** A rejection by claim id: terminal for the row holding that claim, "duplicate" when it already is. */
    method Reject(id: string, channel: string, mailbox: string, claimId: string, reason: string, now: int) returns (r: RejectionResult)
      requires Valid()
      modifies this`rows
      ensures Valid()
      ensures r == RejectedNow ==> exists q ::
        && q in old(Contents()) && old(Contents())[q].state == Active
        && AckMatches(old(Contents())[q], id, channel, mailbox, Some(claimId))
        && Contents() == old(Contents())[q := Terminated(old(Contents())[q], reason, now, Some(claimId))]
      ensures r != RejectedNow ==> Contents() == old(Contents())
      ensures r != RejectedNow ==>
        (r == Duplicate <==> exists q :: q in Contents() && RejectedBy(Contents()[q], id, channel, mailbox, claimId))
    {
      for i := 0 to |rows|
        invariant rows == old(rows) && Contents() == old(Contents())
      {
        if rows[i].state == Active && AckMatches(rows[i], id, channel, mailbox, Some(claimId)) {
          ghost var q := rows[i].pk;
          assert q in old(Contents()) && old(Contents())[q] == rows[i];
          SetRow(i, Terminated(rows[i], reason, now, Some(claimId)));
          return RejectedNow;
        }
      }
      for i := 0 to |rows|
        invariant rows == old(rows) && Contents() == old(Contents())
        invariant forall k | 0 <= k < i :: !RejectedBy(rows[k], id, channel, mailbox, claimId)
      {
        if RejectedBy(rows[i], id, channel, mailbox, claimId) {
          assert rows[i].pk in Contents() && Contents()[rows[i].pk] == rows[i];
          return Duplicate;
        }
      }
      return Stale;
    }

    /** Makes the letter terminal: "duplicate" if it is already, else its active row if there is one, else a marker. */
    method RecordRejection(l: Letter, reason: string, now: int) returns (r: RejectionResult)
      requires Valid()
      modifies this
      ensures Valid() && r != Stale
      ensures r == Duplicate ==>
        && Contents() == old(Contents())
        && exists q :: q in Contents() && Contents()[q].dedupeKey == l.dedupeKey && Contents()[q].state == Rejected
      ensures r == RejectedNow ==>
        || (exists q ::
            && q in old(Contents()) && old(Contents())[q].dedupeKey == l.dedupeKey && old(Contents())[q].state == Active
            && Contents() == old(Contents())[q := Terminated(old(Contents())[q], reason, now, None)])
        || ((forall q | q in old(Contents()) :: old(Contents())[q].dedupeKey != l.dedupeKey)
            && Contents() == old(Contents())[old(pk) := TerminalRow(old(pk), l, reason, now)])
    {
      var existing := FindDedupe(l.dedupeKey);
      if existing.Some? {
        var i := existing.value;
        assert rows[i].pk in Contents() && Contents()[rows[i].pk] == rows[i];
        if rows[i].state == Rejected { return Duplicate; }
        SetRow(i, Terminated(rows[i], reason, now, None));
        return RejectedNow;
      }
      Push(TerminalRow(pk, l, reason, now));
      return RejectedNow;
    }

    /** Drops every row past its expiry and no other. */
    method DeleteExpired(now: int) returns (dropped: nat)
      requires Valid()
      modifies this`rows
      ensures Valid() && dropped == |old(rows)| - |rows|
      ensures Contents() == Unexpired(old(Contents()), now)
    {
      hide Unexpired, ContentsOf;
      var retained: seq<Row> := [];
      for i := 0 to |rows|
        invariant rows == old(rows)
        invariant retained == Retained(rows[..i], now)
      {
        assert rows[..i + 1][..i] == rows[..i];
        if rows[i].expiresAt > now { retained := retained + [rows[i]]; }
      }
      assert rows[..|rows|] == rows;
      RetainedRows(rows, pk, now);
      FilterContents(rows, pk, now, retained);
      dropped := |rows| - |retained|;
      rows := retained;
    }
  }

  predicate RejectedBy(r: Row, id: string, channel: string, mailbox: string, claimId: string)
  {
    r.state == Rejected && r.id == id && In(r, channel, mailbox) && r.terminalClaimId == Some(claimId)
  }
}

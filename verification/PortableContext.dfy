/**
 * The authenticated context of an attachment object (service/src/attachments/portableContext.ts):
 * which inputs are rejected, the exact byte layout, and that the layout identifies the context.
 */
module PortableContext {
  import opened Common
  import opened Bytes

  datatype ObjectType = ManifestObject | ChunkObject

  datatype Context = Context(
    transferId: string, conversationId: string,
    senderParticipantId: string, recipientParticipantId: string,
    senderIdentityReference: string, recipientIdentityReference: string,
    fileSize: int, chunkSize: int, chunkCount: int)

  const DOMAIN := "k3ncrypt/attachment-aad/v2\0"
  const MANIFEST_INDEX: nat := 0xffff_ffff

  // ---------- UUIDs and identity references ----------

  predicate IsHex(c: char)
  {
    '0' <= c <= '9' || 'a' <= c <= 'f' || 'A' <= c <= 'F'
  }

  function HexValue(c: char): (v: nat)
    requires IsHex(c)
    ensures v < 16
  {
    if c <= '9' then c as int - '0' as int
    else if c <= 'F' then c as int - 'A' as int + 10
    else c as int - 'a' as int + 10
  }

  function Lower(c: char): (l: char)
  {
    if 'A' <= c <= 'Z' then (c as int + 32) as char else c
  }

  predicate IsHyphenPosition(i: int)
  {
    i == 8 || i == 13 || i == 18 || i == 23
  }

  /** The accepted text form of a UUID: hexadecimal of either case, version 1 to 8, variant 8, 9, a or b. */
  predicate ValidUuid(s: string)
  {
    && |s| == 36
    && (forall i | 0 <= i < 36 :: if IsHyphenPosition(i) then s[i] == '-' else IsHex(s[i]))
    && '1' <= s[14] <= '8'
    && (s[19] == '8' || s[19] == '9' || Lower(s[19]) == 'a' || Lower(s[19]) == 'b')
  }

  predicate SameUuid(a: string, b: string)
  {
    |a| == |b| && forall i | 0 <= i < |a| :: Lower(a[i]) == Lower(b[i])
  }

  predicate AllHex(digits: string)
  {
    forall i | 0 <= i < |digits| :: IsHex(digits[i])
  }

  function Digits(uuid: string): (digits: string)
    requires ValidUuid(uuid)
    ensures |digits| == 32 && AllHex(digits)
  {
    uuid[0..8] + uuid[9..13] + uuid[14..18] + uuid[19..23] + uuid[24..36]
  }

  function PackHex(digits: string): (bytes: seq<byte>)
    requires |digits| % 2 == 0 && AllHex(digits)
    ensures |bytes| == |digits| / 2
  {
    if digits == [] then []
    else [HexValue(digits[0]) * 16 + HexValue(digits[1])] + PackHex(digits[2..])
  }

  function UuidBytes(uuid: string): (bytes: seq<byte>)
    requires ValidUuid(uuid)
    ensures |bytes| == 16
  {
    PackHex(Digits(uuid))
  }

  lemma HexDigitsAgree(a: char, b: char)
    requires IsHex(a) && IsHex(b)
    ensures HexValue(a) == HexValue(b) <==> Lower(a) == Lower(b)
  {
  }

  lemma {:induction false} PackHexInjective(a: string, b: string)
    requires |a| == |b| && |a| % 2 == 0 && AllHex(a) && AllHex(b)
    requires PackHex(a) == PackHex(b)
    ensures SameUuid(a, b)
  {
    if a != [] {
      assert PackHex(a)[0] == PackHex(b)[0];
      assert PackHex(a)[1..] == PackHex(a[2..]) && PackHex(b)[1..] == PackHex(b[2..]);
      PackHexInjective(a[2..], b[2..]);
      HexDigitsAgree(a[0], b[0]);
      HexDigitsAgree(a[1], b[1]);
      assert a == a[..2] + a[2..] && b == b[..2] + b[2..];
    }
  }

  lemma {:induction false} PackHexIgnoresCase(a: string, b: string)
    requires |a| == |b| && |a| % 2 == 0 && AllHex(a) && AllHex(b)
    requires SameUuid(a, b)
    ensures PackHex(a) == PackHex(b)
  {
    if a != [] {
      PackHexIgnoresCase(a[2..], b[2..]);
      HexDigitsAgree(a[0], b[0]);
      HexDigitsAgree(a[1], b[1]);
    }
  }

  /** The sixteen bytes identify a UUID up to the case of its letters, and no further. */
  lemma UuidBytesIdentify(a: string, b: string)
    requires ValidUuid(a) && ValidUuid(b)
    ensures UuidBytes(a) == UuidBytes(b) <==> SameUuid(a, b)
  {
    var da, db := Digits(a), Digits(b);
    if SameUuid(a, b) { PackHexIgnoresCase(da, db); }
    if UuidBytes(a) == UuidBytes(b) {
      PackHexInjective(da, db);
      forall i | 0 <= i < 36
        ensures Lower(a[i]) == Lower(b[i])
      {
        if !IsHyphenPosition(i) {
          var k := DigitPosition(i);
          assert a[i] == da[k] && b[i] == db[k];
        }
      }
    }
  }

  function DigitPosition(i: int): (k: int)
    requires 0 <= i < 36 && !IsHyphenPosition(i)
    ensures 0 <= k < 32
  {
    if i < 8 then i else if i < 13 then i - 1 else if i < 18 then i - 2 else if i < 23 then i - 3 else i - 4
  }

  predicate IsReferenceChar(c: char)
  {
    'A' <= c <= 'Z' || '0' <= c <= '9' || c == '_' || c == '-'
  }

  /** "K3 " and then ten groups of four characters and one of three, separated by single spaces. */
  predicate ValidIdentityReference(s: string)
  {
    && |s| == 56
    && s[..3] == "K3 "
    && forall i | 3 <= i < 56 :: if (i - 3) % 5 == 4 then s[i] == ' ' else IsReferenceChar(s[i])
  }

  function Ascii(s: string): (bytes: seq<byte>)
    requires forall i | 0 <= i < |s| :: s[i] < 128 as char
    ensures |bytes| == |s|
    ensures forall i | 0 <= i < |s| :: bytes[i] == s[i] as int
  {
    seq(|s|, i requires 0 <= i < |s| => s[i] as int)
  }

  lemma AsciiInjective(a: string, b: string)
    requires forall i | 0 <= i < |a| :: a[i] < 128 as char
    requires forall i | 0 <= i < |b| :: b[i] < 128 as char
    requires Ascii(a) == Ascii(b)
    ensures a == b
  {
    assert |a| == |b|;
    forall i | 0 <= i < |a|
      ensures a[i] == b[i]
    {
      assert Ascii(a)[i] == Ascii(b)[i];
    }
  }

  lemma ReferenceIsAscii(s: string)
    requires ValidIdentityReference(s)
    ensures forall i | 0 <= i < |s| :: s[i] < 128 as char
  {
    assert s[0] == "K3 "[0] && s[1] == "K3 "[1] && s[2] == "K3 "[2];
    forall i | 0 <= i < |s|
      ensures s[i] < 128 as char
    {
      if i >= 3 && (i - 3) % 5 != 4 { assert IsReferenceChar(s[i]); }
    }
  }

  // ---------- which contexts are accepted ----------

  predicate ValidContext(c: Context)
  {
    && ValidUuid(c.transferId) && ValidUuid(c.conversationId)
    && ValidUuid(c.senderParticipantId) && ValidUuid(c.recipientParticipantId)
    && c.senderParticipantId != c.recipientParticipantId
    && c.senderIdentityReference != c.recipientIdentityReference
    && ValidIdentityReference(c.senderIdentityReference) && ValidIdentityReference(c.recipientIdentityReference)
    && 1 <= c.fileSize <= 50 * 1024 * 1024
    && 1 <= c.chunkSize <= 256 * 1024
    && c.chunkCount == CeilDiv(c.fileSize, c.chunkSize)
    && 1 <= c.chunkCount <= 256
  }

  /** A manifest names no chunk; a chunk names one inside the file. */
  predicate ValidIndex(kind: ObjectType, c: Context, chunkIndex: Option<int>)
  {
    match kind
    case ManifestObject => chunkIndex.None?
    case ChunkObject => chunkIndex.Some? && 0 <= chunkIndex.value < c.chunkCount
  }

  predicate Accepted(kind: ObjectType, c: Context, chunkIndex: Option<int>)
  {
    ValidContext(c) && ValidIndex(kind, c, chunkIndex)
  }

  function WireIndex(chunkIndex: Option<int>): (index: int)
  {
    if chunkIndex.None? then MANIFEST_INDEX else chunkIndex.value
  }

  // ---------- the layout ----------

  function Encoding(kind: ObjectType, c: Context, chunkIndex: Option<int>): (bytes: seq<byte>)
    requires Accepted(kind, c, chunkIndex)
  {
    ReferenceIsAscii(c.senderIdentityReference);
    ReferenceIsAscii(c.recipientIdentityReference);
    Ascii(DOMAIN)
    + [2, if kind.ManifestObject? then 1 else 2]
    + UuidBytes(c.transferId)
    + UuidBytes(c.conversationId)
    + UuidBytes(c.senderParticipantId)
    + UuidBytes(c.recipientParticipantId)
    + BigEndian(|c.senderIdentityReference|, 2)
    + Ascii(c.senderIdentityReference)
    + BigEndian(|c.recipientIdentityReference|, 2)
    + Ascii(c.recipientIdentityReference)
    + BigEndian(c.fileSize, 8)
    + BigEndian(c.chunkSize, 4)
    + BigEndian(c.chunkCount, 4)
    + BigEndian(WireIndex(chunkIndex), 4)
  }

  /** Equal up to the letter case of the four UUIDs. */
  predicate SameContext(a: Context, b: Context)
  {
    && SameUuid(a.transferId, b.transferId)
    && SameUuid(a.conversationId, b.conversationId)
    && SameUuid(a.senderParticipantId, b.senderParticipantId)
    && SameUuid(a.recipientParticipantId, b.recipientParticipantId)
    && a.senderIdentityReference == b.senderIdentityReference
    && a.recipientIdentityReference == b.recipientIdentityReference
    && a.fileSize == b.fileSize && a.chunkSize == b.chunkSize && a.chunkCount == b.chunkCount
  }

  lemma Pow256Values()
    ensures Pow256(4) == 0x1_0000_0000 && Pow256(8) == 0x1_0000_0000_0000_0000
  {
    assert Pow256(2) == 65536;
    assert Pow256(3) == 256 * Pow256(2);
    assert Pow256(4) == 256 * Pow256(3);
    assert Pow256(5) == 256 * Pow256(4);
    assert Pow256(6) == 256 * Pow256(5);
    assert Pow256(7) == 256 * Pow256(6);
  }

  /** Two numbers behind two equally long heads are equal when the whole encodings are. */
  lemma NumberSplits(a: seq<byte>, m: nat, c: seq<byte>, n: nat, width: nat)
    requires |a| == |c|
    requires m < Pow256(width) && n < Pow256(width)
    requires a + BigEndian(m, width) == c + BigEndian(n, width)
    ensures a == c && m == n
  {
    ConcatSplits(a, BigEndian(m, width), c, BigEndian(n, width));
    BigEndianInjective(m, n, width);
  }

  function Header(kind: ObjectType, c: Context): (bytes: seq<byte>)
    requires ValidContext(c)
  {
    Ascii(DOMAIN)
    + [2, if kind.ManifestObject? then 1 else 2]
    + UuidBytes(c.transferId)
    + UuidBytes(c.conversationId)
    + UuidBytes(c.senderParticipantId)
    + UuidBytes(c.recipientParticipantId)
  }

  lemma HeaderIdentifies(kindA: ObjectType, a: Context, kindB: ObjectType, b: Context)
    requires ValidContext(a) && ValidContext(b)
    requires Header(kindA, a) == Header(kindB, b)
    ensures kindA == kindB
    ensures SameUuid(a.transferId, b.transferId) && SameUuid(a.conversationId, b.conversationId)
    ensures SameUuid(a.senderParticipantId, b.senderParticipantId)
    ensures SameUuid(a.recipientParticipantId, b.recipientParticipantId)
  {
    hide UuidBytes, SameUuid, ValidUuid, Ascii, ValidIdentityReference;
    var ta, tb := (if kindA.ManifestObject? then 1 else 2) as byte, (if kindB.ManifestObject? then 1 else 2) as byte;
    var a0, b0 := Ascii(DOMAIN) + [2, ta], Ascii(DOMAIN) + [2, tb];
    var a1, b1 := a0 + UuidBytes(a.transferId), b0 + UuidBytes(b.transferId);
    var a2, b2 := a1 + UuidBytes(a.conversationId), b1 + UuidBytes(b.conversationId);
    var a3, b3 := a2 + UuidBytes(a.senderParticipantId), b2 + UuidBytes(b.senderParticipantId);
    ConcatSplits(a3, UuidBytes(a.recipientParticipantId), b3, UuidBytes(b.recipientParticipantId));
    ConcatSplits(a2, UuidBytes(a.senderParticipantId), b2, UuidBytes(b.senderParticipantId));
    ConcatSplits(a1, UuidBytes(a.conversationId), b1, UuidBytes(b.conversationId));
    ConcatSplits(a0, UuidBytes(a.transferId), b0, UuidBytes(b.transferId));
    ConcatSplits(Ascii(DOMAIN), [2, ta], Ascii(DOMAIN), [2, tb]);
    assert [2, ta][1] == [2, tb][1];
    UuidBytesIdentify(a.transferId, b.transferId);
    UuidBytesIdentify(a.conversationId, b.conversationId);
    UuidBytesIdentify(a.senderParticipantId, b.senderParticipantId);
    UuidBytesIdentify(a.recipientParticipantId, b.recipientParticipantId);
  }

  /**
   * The encoding identifies the object: equal bytes come only from the same type, the same identities,
   * sizes and index, and the same UUIDs up to letter case. In particular no manifest encoding is ever a
   * chunk encoding.
   */
  lemma EncodingIdentifies(kindA: ObjectType, a: Context, i: Option<int>, kindB: ObjectType, b: Context, j: Option<int>)
    requires Accepted(kindA, a, i) && Accepted(kindB, b, j)
    requires Encoding(kindA, a, i) == Encoding(kindB, b, j)
    ensures kindA == kindB && i == j && SameContext(a, b)
  {
    Pow256Values();
    ReferenceIsAscii(a.senderIdentityReference);
    ReferenceIsAscii(a.recipientIdentityReference);
    ReferenceIsAscii(b.senderIdentityReference);
    ReferenceIsAscii(b.recipientIdentityReference);
    var sa, sb := Ascii(a.senderIdentityReference), Ascii(b.senderIdentityReference);
    var ra, rb := Ascii(a.recipientIdentityReference), Ascii(b.recipientIdentityReference);
    var length := BigEndian(56, 2);
    var a0, b0 := Header(kindA, a) + length, Header(kindB, b) + length;
    var a1, b1 := a0 + sa + length, b0 + sb + length;
    var a2, b2 := a1 + ra, b1 + rb;
    var a3, b3 := a2 + BigEndian(a.fileSize, 8), b2 + BigEndian(b.fileSize, 8);
    var a4, b4 := a3 + BigEndian(a.chunkSize, 4), b3 + BigEndian(b.chunkSize, 4);
    var a5, b5 := a4 + BigEndian(a.chunkCount, 4), b4 + BigEndian(b.chunkCount, 4);
    NumberSplits(a5, WireIndex(i), b5, WireIndex(j), 4);
    NumberSplits(a4, a.chunkCount, b4, b.chunkCount, 4);
    NumberSplits(a3, a.chunkSize, b3, b.chunkSize, 4);
    NumberSplits(a2, a.fileSize, b2, b.fileSize, 8);
    ConcatSplits(a1, ra, b1, rb);
    ConcatSplits(a0 + sa, length, b0 + sb, length);
    ConcatSplits(a0, sa, b0, sb);
    ConcatSplits(Header(kindA, a), length, Header(kindB, b), length);
    HeaderIdentifies(kindA, a, kindB, b);
    AsciiInjective(a.senderIdentityReference, b.senderIdentityReference);
    AsciiInjective(a.recipientIdentityReference, b.recipientIdentityReference);
  }

  /** Conversely, letter case is the only thing the encoding forgets. */
  lemma EncodingForgetsOnlyCase(kind: ObjectType, a: Context, b: Context, i: Option<int>)
    requires Accepted(kind, a, i) && Accepted(kind, b, i)
    requires SameContext(a, b)
    ensures Encoding(kind, a, i) == Encoding(kind, b, i)
  {
    UuidBytesIdentify(a.transferId, b.transferId);
    UuidBytesIdentify(a.conversationId, b.conversationId);
    UuidBytesIdentify(a.senderParticipantId, b.senderParticipantId);
    UuidBytesIdentify(a.recipientParticipantId, b.recipientParticipantId);
  }

  /** The encoder: rejects exactly the inputs that are not accepted, and otherwise joins the fourteen parts. */
  method EncodeAttachmentContext(kind: ObjectType, c: Context, chunkIndex: Option<int>) returns (r: Result<seq<byte>, ()>)
    ensures r.Ok? <==> Accepted(kind, c, chunkIndex)
    ensures r.Ok? ==> r.value == Encoding(kind, c, chunkIndex)
  {
    if !ValidContext(c) { return Err(()); }
    if kind.ChunkObject? && (chunkIndex.None? || chunkIndex.value < 0 || chunkIndex.value >= c.chunkCount) { return Err(()); }
    if kind.ManifestObject? && chunkIndex.Some? { return Err(()); }
    Pow256Values();
    ReferenceIsAscii(c.senderIdentityReference);
    ReferenceIsAscii(c.recipientIdentityReference);
    var sender, recipient := Ascii(c.senderIdentityReference), Ascii(c.recipientIdentityReference);
    var senderLength := Integer(|sender|, 2);
    var recipientLength := Integer(|recipient|, 2);
    var size := Integer(c.fileSize, 8);
    var chunkSize := Integer(c.chunkSize, 4);
    var chunkCount := Integer(c.chunkCount, 4);
    var index := Integer(WireIndex(chunkIndex), 4);
    var parts := Parts(kind, c, sender, recipient, senderLength.value, recipientLength.value,
                       [size.value, chunkSize.value, chunkCount.value, index.value]);
    var bytes := Concat(parts);
    PartsJoin(kind, c, sender, recipient, senderLength.value, recipientLength.value,
              [size.value, chunkSize.value, chunkCount.value, index.value]);
    return Ok(bytes);
  }

  function Parts(kind: ObjectType, c: Context, sender: seq<byte>, recipient: seq<byte>,
                 senderLength: seq<byte>, recipientLength: seq<byte>, numbers: seq<seq<byte>>): (parts: seq<seq<byte>>)
    requires ValidContext(c)
  {
    [Ascii(DOMAIN), [2, if kind.ManifestObject? then 1 else 2],
     UuidBytes(c.transferId), UuidBytes(c.conversationId),
     UuidBytes(c.senderParticipantId), UuidBytes(c.recipientParticipantId)]
    + [senderLength, sender, recipientLength, recipient]
    + numbers
  }

  lemma PartsJoin(kind: ObjectType, c: Context, sender: seq<byte>, recipient: seq<byte>,
                  senderLength: seq<byte>, recipientLength: seq<byte>, numbers: seq<seq<byte>>)
    requires ValidContext(c) && |numbers| == 4
    ensures Flatten(Parts(kind, c, sender, recipient, senderLength, recipientLength, numbers))
         == Header(kind, c) + senderLength + sender + recipientLength + recipient
            + numbers[0] + numbers[1] + numbers[2] + numbers[3]
  {
    var head := [Ascii(DOMAIN), [2, if kind.ManifestObject? then 1 else 2],
                 UuidBytes(c.transferId), UuidBytes(c.conversationId),
                 UuidBytes(c.senderParticipantId), UuidBytes(c.recipientParticipantId)];
    var identities := [senderLength, sender, recipientLength, recipient];
    FlattenAppend(head + identities, numbers);
    FlattenAppend(head, identities);
    FlattenSix(head);
    FlattenFour(identities);
    FlattenFour(numbers);
    FourAfter(Header(kind, c), identities);
    FourAfter(Header(kind, c) + Flatten(identities), numbers);
  }

  lemma FourAfter(head: seq<byte>, p: seq<seq<byte>>)
    requires |p| == 4
    ensures head + (p[0] + p[1] + p[2] + p[3]) == head + p[0] + p[1] + p[2] + p[3]
  {
  }

  lemma {:induction false} FlattenAppend(a: seq<seq<byte>>, b: seq<seq<byte>>)
    ensures Flatten(a + b) == Flatten(a) + Flatten(b)
  {
    if b == [] {
      assert a + b == a;
    } else {
      var front := b[..|b| - 1];
      FlattenAppend(a, front);
      assert (a + b)[..|a + b| - 1] == a + front;
    }
  }

  lemma FlattenFour(p: seq<seq<byte>>)
    requires |p| == 4
    ensures Flatten(p) == p[0] + p[1] + p[2] + p[3]
  {
    assert p[..3][..2] == p[..2] && p[..2][..1] == p[..1] && p[..1][..0] == [];
    assert Flatten(p[..1]) == p[0];
    assert Flatten(p[..2]) == p[0] + p[1];
    assert Flatten(p[..3]) == p[0] + p[1] + p[2];
  }

  lemma FlattenSix(p: seq<seq<byte>>)
    requires |p| == 6
    ensures Flatten(p) == p[0] + p[1] + p[2] + p[3] + p[4] + p[5]
  {
    FlattenFour(p[..4]);
    assert p[..5][..4] == p[..4];
    assert Flatten(p[..5]) == Flatten(p[..4]) + p[4];
  }
}

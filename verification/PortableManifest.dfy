/**
 * The attachment manifest format (service/src/attachments/portableManifest.ts). Filename sanitising and
 * UTF-8 are the host's; everything about the layout, the checks and the canonical-form test is here.
 */
module PortableManifest {
  import opened Common
  import opened Bytes

  datatype Manifest = Manifest(
    fileSize: int, chunkSize: int, chunkCount: int, createdAt: int, expiresAt: int,
    filename: string, mimeType: string)

  /** What the host supplies: UTF-8 both ways (strict when decoding) and `safeName`, which may reject. */
  datatype Host = Host(encode: string -> seq<byte>, decode: seq<byte> -> Option<string>, safeName: string -> Option<string>)

  const WEEK_MS: int := 7 * 24 * 60 * 60 * 1000
  const DOMAIN: seq<byte> := [107, 51, 110, 99, 114, 121, 112, 116, 47, 109, 97, 110, 105, 102, 101, 115, 116, 47, 118, 50, 0]

  // ---------- media types ----------

  predicate IsMimeChar(c: char)
  {
    'a' <= c <= 'z' || 'A' <= c <= 'Z' || '0' <= c <= '9' || c in "!#$&^_.+-"
  }

  predicate SplitsAt(s: string, k: int)
  {
    0 < k < |s| - 1 && s[k] == '/' && forall i | 0 <= i < |s| && i != k :: IsMimeChar(s[i])
  }

  predicate ValidMime(s: string)
  {
    |s| <= 127 && exists k | 0 < k < |s| :: SplitsAt(s, k)
  }

  function LowerAll(s: string): (l: string)
    ensures |l| == |s|
    ensures forall i | 0 <= i < |s| :: l[i] == LowerChar(s[i])
  {
    seq(|s|, i requires 0 <= i < |s| => LowerChar(s[i]))
  }

  function LowerChar(c: char): (l: char)
  {
    if 'A' <= c <= 'Z' then (c as int + 32) as char else c
  }

  function Mime(s: string): (m: string)
  {
    if ValidMime(s) then LowerAll(s) else "application/octet-stream"
  }

  /** Normalising a media type twice is normalising it once. */
  lemma MimeIdempotent(s: string)
    ensures Mime(Mime(s)) == Mime(s)
  {
    var m := Mime(s);
    if ValidMime(s) {
      var k :| 0 < k < |s| && SplitsAt(s, k);
      assert SplitsAt(m, k);
      assert LowerAll(m) == m;
    } else {
      assert SplitsAt(m, 11);
      assert LowerAll(m) == m;
    }
  }

  // ---------- encoding ----------

  predicate ValidNumbers(m: Manifest)
  {
    && 1 <= m.fileSize <= 50 * 1024 * 1024
    && 1 <= m.chunkSize <= 256 * 1024
    && m.chunkCount == CeilDiv(m.fileSize, m.chunkSize)
    && 1 <= m.chunkCount <= 256
    && 0 <= m.createdAt <= MAX_SAFE_INTEGER
    && m.createdAt < m.expiresAt <= MAX_SAFE_INTEGER
    && m.expiresAt - m.createdAt <= WEEK_MS
  }

  function Numbers(m: Manifest): (bytes: seq<byte>)
    requires ValidNumbers(m)
    ensures |bytes| == 53
  {
    DOMAIN + BigEndian(m.fileSize, 8) + BigEndian(m.chunkSize, 4) + BigEndian(m.chunkCount, 4)
    + BigEndian(m.createdAt, 8) + BigEndian(m.expiresAt, 8)
  }

  function Prefixed(text: seq<byte>): (bytes: seq<byte>)
    ensures |bytes| == 2 + |text|
  {
    BigEndian(|text|, 2) + text
  }

  /** The encoding of a manifest, or nothing when the encoder throws. */
  function Encoding(h: Host, m: Manifest): (r: Option<seq<byte>>)
  {
    if !ValidNumbers(m) then None else
    match h.safeName(m.filename)
    case None => None
    case Some(name) =>
      var nameBytes, typeBytes := h.encode(name), h.encode(Mime(m.mimeType));
      if |nameBytes| > 1024 || |typeBytes| > 127 then None
      else Some(Numbers(m) + Prefixed(nameBytes) + Prefixed(typeBytes))
  }

  /**
   * `m` is the manifest that `bytes` stand for: it encodes to exactly these bytes, and the two texts in
   * them decode to its filename and media type.
   */
  predicate Denotes(h: Host, bytes: seq<byte>, m: Manifest)
  {
    && Encoding(h, m) == Some(bytes)
    && h.decode(h.encode(h.safeName(m.filename).value)) == Some(m.filename)
    && h.decode(h.encode(Mime(m.mimeType))) == Some(m.mimeType)
  }

  /** What an encoder returns for a caller: names and media types in normal form. */
  function Normalised(h: Host, m: Manifest): (n: Manifest)
    requires h.safeName(m.filename).Some?
  {
    m.(filename := h.safeName(m.filename).value, mimeType := Mime(m.mimeType))
  }

  /**
   * Round trip, with its exact condition: the bytes of an encoded manifest stand for its normal form if and
   * only if the sanitised name survives sanitising byte for byte and both texts decode to themselves.
   */
  lemma EncodingRoundTrip(h: Host, m: Manifest, bytes: seq<byte>)
    requires Encoding(h, m) == Some(bytes)
    ensures Denotes(h, bytes, Normalised(h, m)) <==>
      var n := Normalised(h, m);
      && h.safeName(n.filename).Some?
      && h.encode(h.safeName(n.filename).value) == h.encode(n.filename)
      && h.decode(h.encode(n.filename)) == Some(n.filename)
      && h.decode(h.encode(n.mimeType)) == Some(n.mimeType)
  {
    MimeIdempotent(m.mimeType);
    var n := Normalised(h, m);
    assert Numbers(n) == Numbers(m);
    if Denotes(h, bytes, n) {
      var again := h.encode(h.safeName(n.filename).value);
      ReadText(Numbers(n), again, Prefixed(h.encode(n.mimeType)), bytes);
      ReadText(Numbers(m), h.encode(n.filename), Prefixed(h.encode(n.mimeType)), bytes);
    }
  }

  // ---------- reading ----------

  /** The big-endian number in bytes [at, at + width). */
  function NumberAt(bytes: seq<byte>, at: nat, width: nat): (v: nat)
    requires at + width <= |bytes|
  {
    FromBigEndian(bytes[at..at + width])
  }

  lemma ReadNumber(head: seq<byte>, value: nat, width: nat, rest: seq<byte>, bytes: seq<byte>)
    requires value < Pow256(width)
    requires bytes == head + BigEndian(value, width) + rest
    ensures NumberAt(bytes, |head|, width) == value
  {
    BigEndianRoundTrip(value, width);
    assert bytes[|head|..|head| + width] == BigEndian(value, width);
  }

  lemma ReadText(head: seq<byte>, text: seq<byte>, rest: seq<byte>, bytes: seq<byte>)
    requires |text| <= 1024
    requires bytes == head + Prefixed(text) + rest
    ensures |head| + 2 + |text| <= |bytes|
    ensures NumberAt(bytes, |head|, 2) == |text|
    ensures bytes[|head| + 2..|head| + 2 + |text|] == text
  {
    assert Pow256(2) == 65536;
    assert head + Prefixed(text) + rest == head + BigEndian(|text|, 2) + (text + rest);
    ReadNumber(head, |text|, 2, text + rest, bytes);
  }

  lemma Pow256Values()
    ensures Pow256(2) == 65536 && Pow256(4) == 0x1_0000_0000 && Pow256(8) == 0x1_0000_0000_0000_0000
  {
    assert Pow256(3) == 256 * Pow256(2);
    assert Pow256(4) == 256 * Pow256(3);
    assert Pow256(5) == 256 * Pow256(4);
    assert Pow256(6) == 256 * Pow256(5);
    assert Pow256(7) == 256 * Pow256(6);
  }

  lemma PrefixShrinks(a: seq<byte>, b: seq<byte>, bytes: seq<byte>)
    requires a + b <= bytes
    ensures a <= bytes
  {
    assert a == (a + b)[..|a|];
  }

  lemma ReadPrefixNumber(head: seq<byte>, value: nat, width: nat, bytes: seq<byte>)
    requires value < Pow256(width)
    requires head + BigEndian(value, width) <= bytes
    ensures head <= bytes
    ensures |head| + width <= |bytes| && NumberAt(bytes, |head|, width) == value
  {
    var n := |head| + width;
    assert bytes == head + BigEndian(value, width) + bytes[n..];
    ReadNumber(head, value, width, bytes[n..], bytes);
    PrefixShrinks(head, BigEndian(value, width), bytes);
  }

  /** The fixed part of any encoding reads back as its five numbers. */
  lemma ReadNumbers(m: Manifest, bytes: seq<byte>)
    requires ValidNumbers(m)
    requires Numbers(m) <= bytes
    ensures |bytes| >= 53 && bytes[..21] == DOMAIN
    ensures NumberAt(bytes, 21, 8) == m.fileSize
    ensures NumberAt(bytes, 29, 4) == m.chunkSize
    ensures NumberAt(bytes, 33, 4) == m.chunkCount
    ensures NumberAt(bytes, 37, 8) == m.createdAt
    ensures NumberAt(bytes, 45, 8) == m.expiresAt
  {
    Pow256Values();
    var a := DOMAIN + BigEndian(m.fileSize, 8);
    var b := a + BigEndian(m.chunkSize, 4);
    var c := b + BigEndian(m.chunkCount, 4);
    var d := c + BigEndian(m.createdAt, 8);
    ReadPrefixNumber(d, m.expiresAt, 8, bytes);
    ReadPrefixNumber(c, m.createdAt, 8, bytes);
    ReadPrefixNumber(b, m.chunkCount, 4, bytes);
    ReadPrefixNumber(a, m.chunkSize, 4, bytes);
    ReadPrefixNumber(DOMAIN, m.fileSize, 8, bytes);
    assert |DOMAIN| == 21;
  }

  /** What the cursor reads, before the canonical-form test. */
  function Parsed(h: Host, bytes: seq<byte>): (r: Option<Manifest>)
  {
    if |bytes| < 21 + 36 || bytes[..21] != DOMAIN then None else
    var fileSize, createdAt, expiresAt := NumberAt(bytes, 21, 8), NumberAt(bytes, 37, 8), NumberAt(bytes, 45, 8);
    if fileSize > MAX_SAFE_INTEGER || createdAt > MAX_SAFE_INTEGER || expiresAt > MAX_SAFE_INTEGER then None else
    var n := NumberAt(bytes, 53, 2);
    if n > 1024 || 57 + n > |bytes| then None else
    var t := NumberAt(bytes, 55 + n, 2);
    if t > 127 || 57 + n + t != |bytes| then None else
    var filename, mimeType := h.decode(bytes[55..55 + n]), h.decode(bytes[57 + n..57 + n + t]);
    if filename.None? || mimeType.None? then None else
    Some(Manifest(fileSize, NumberAt(bytes, 29, 4), NumberAt(bytes, 33, 4), createdAt, expiresAt,
                  filename.value, mimeType.value))
  }

  /** Reading finds the manifest that the bytes stand for, whenever there is one. */
  lemma DenotedParses(h: Host, bytes: seq<byte>, m: Manifest)
    requires Denotes(h, bytes, m)
    ensures Parsed(h, bytes) == Some(m)
  {
    var name, kind := h.encode(h.safeName(m.filename).value), h.encode(Mime(m.mimeType));
    PrefixShrinks(Numbers(m) + Prefixed(name), Prefixed(kind), bytes);
    PrefixShrinks(Numbers(m), Prefixed(name), bytes);
    ReadNumbers(m, bytes);
    ReadText(Numbers(m), name, Prefixed(kind), bytes);
    assert bytes == (Numbers(m) + Prefixed(name)) + Prefixed(kind) + [];
    ReadText(Numbers(m) + Prefixed(name), kind, [], bytes);
  }

  /**
   * The decoder compares only the indices of the re-encoding. That is enough: the two length fields are
   * among them, so a re-encoding that agrees with the input as far as it goes has the input's length.
   */
  lemma AgreementIsEquality(h: Host, bytes: seq<byte>, m: Manifest, again: seq<byte>, n: nat, t: nat)
    requires Encoding(h, m) == Some(again)
    requires |again| <= |bytes| && forall i | 0 <= i < |again| :: again[i] == bytes[i]
    requires 55 <= |bytes| && n == NumberAt(bytes, 53, 2)
    requires 57 + n <= |bytes| && t == NumberAt(bytes, 55 + n, 2)
    requires |bytes| == 57 + n + t
    ensures again == bytes
    ensures h.encode(h.safeName(m.filename).value) == bytes[55..55 + n]
    ensures h.encode(Mime(m.mimeType)) == bytes[57 + n..57 + n + t]
  {
    var name, kind := h.encode(h.safeName(m.filename).value), h.encode(Mime(m.mimeType));
    ReadText(Numbers(m), name, Prefixed(kind), again);
    assert again[53..55] == bytes[53..55];
    assert |name| == n;
    assert again == (Numbers(m) + Prefixed(name)) + Prefixed(kind) + [];
    ReadText(Numbers(m) + Prefixed(name), kind, [], again);
    assert again[55 + n..57 + n] == bytes[55 + n..57 + n];
    assert |kind| == t;
    assert again == bytes;
  }

  /** Reads one length-prefixed text at the cursor; rejects lengths over `max` or past the end. */
  method Take(bytes: seq<byte>, at: nat, max: nat) returns (part: Option<seq<byte>>, next: nat)
    ensures part.Some? <==>
      at + 2 <= |bytes| && NumberAt(bytes, at, 2) <= max && at + 2 + NumberAt(bytes, at, 2) <= |bytes|
    ensures part.Some? ==> next == at + 2 + NumberAt(bytes, at, 2) && part.value == bytes[at + 2..next]
  {
    if at + 2 > |bytes| { return None, at; }
    var length := NumberAt(bytes, at, 2);
    next := at + 2;
    if length > max || next + length > |bytes| { return None, at; }
    part := Some(bytes[next..next + length]);
    next := next + length;
  }

  method EncodeAttachmentManifest(h: Host, m: Manifest) returns (r: Option<seq<byte>>)
    ensures r == Encoding(h, m)
  {
    var safe := h.safeName(m.filename);
    if !ValidNumbers(m) || safe.None? { return None; }
    var name, contentType := h.encode(safe.value), h.encode(Mime(m.mimeType));
    if |name| > 1024 || |contentType| > 127 { return None; }
    Pow256Values();
    var fileSize := Integer(m.fileSize, 8);
    var chunkSize := Integer(m.chunkSize, 4);
    var chunkCount := Integer(m.chunkCount, 4);
    var createdAt := Integer(m.createdAt, 8);
    var expiresAt := Integer(m.expiresAt, 8);
    var nameLength := Integer(|name|, 2);
    var typeLength := Integer(|contentType|, 2);
    var numbers := Concat([DOMAIN, fileSize.value, chunkSize.value, chunkCount.value, createdAt.value, expiresAt.value]);
    FlattenSix(DOMAIN, fileSize.value, chunkSize.value, chunkCount.value, createdAt.value, expiresAt.value);
    assert numbers == Numbers(m);
    var nameField := Concat([nameLength.value, name]);
    FlattenTwo(nameLength.value, name);
    var typeField := Concat([typeLength.value, contentType]);
    FlattenTwo(typeLength.value, contentType);
    return Some(numbers + nameField + typeField);
  }

  lemma FlattenTwo(a: seq<byte>, b: seq<byte>)
    ensures Flatten([a, b]) == a + b
  {
    assert [a, b][..1] == [a] && [a][..0] == [];
    assert Flatten([a]) == a;
  }

  lemma FlattenSix(a: seq<byte>, b: seq<byte>, c: seq<byte>, d: seq<byte>, e: seq<byte>, f: seq<byte>)
    ensures Flatten([a, b, c, d, e, f]) == a + b + c + d + e + f
  {
    assert [a, b, c, d, e, f][..5] == [a, b, c, d, e] && [a, b, c, d, e][..4] == [a, b, c, d];
    assert [a, b, c, d][..3] == [a, b, c] && [a, b, c][..2] == [a, b] && [a, b][..1] == [a] && [a][..0] == [];
    assert Flatten([a]) == a && Flatten([a, b]) == a + b && Flatten([a, b, c]) == a + b + c;
    assert Flatten([a, b, c, d]) == a + b + c + d && Flatten([a, b, c, d, e]) == a + b + c + d + e;
  }

  /** The cursor pass. */
  method Parse(h: Host, bytes: seq<byte>) returns (r: Option<Manifest>)
    ensures r == Parsed(h, bytes)
  {
    if |bytes| < 21 + 36 || bytes[..21] != DOMAIN { return None; }
    var at := 21;
    var fileSize := NumberAt(bytes, at, 8);
    at := at + 8;
    var chunkSize := NumberAt(bytes, at, 4);
    at := at + 4;
    var chunkCount := NumberAt(bytes, at, 4);
    at := at + 4;
    var createdAt := NumberAt(bytes, at, 8);
    at := at + 8;
    var expiresAt := NumberAt(bytes, at, 8);
    at := at + 8;
    if fileSize > MAX_SAFE_INTEGER || createdAt > MAX_SAFE_INTEGER || expiresAt > MAX_SAFE_INTEGER { return None; }
    var name, afterName := Take(bytes, at, 1024);
    if name.None? { return None; }
    var filename := h.decode(name.value);
    if filename.None? { return None; }
    var contentType, afterType := Take(bytes, afterName, 127);
    if contentType.None? { return None; }
    var mimeType := h.decode(contentType.value);
    if mimeType.None? || afterType != |bytes| { return None; }
    return Some(Manifest(fileSize, chunkSize, chunkCount, createdAt, expiresAt, filename.value, mimeType.value));
  }

  /** The canonical-form test: every index of `again` holds the byte of `bytes` at that index. */
  method AgreesWith(again: seq<byte>, bytes: seq<byte>) returns (same: bool)
    ensures same <==> again <= bytes
  {
    var i := 0;
    while i < |again|
      invariant 0 <= i <= |again| && i <= |bytes|
      invariant again[..i] == bytes[..i]
    {
      if i >= |bytes| || again[i] != bytes[i] { return false; }
      i := i + 1;
    }
    return true;
  }

  /** Passing both steps is the same as standing for the parsed manifest. */
  lemma ParsedAndCanonical(h: Host, bytes: seq<byte>, m: Manifest)
    requires Parsed(h, bytes) == Some(m)
    ensures Denotes(h, bytes, m) <==> Encoding(h, m).Some? && Encoding(h, m).value <= bytes
  {
    if Encoding(h, m).Some? && Encoding(h, m).value <= bytes {
      var n := NumberAt(bytes, 53, 2);
      AgreementIsEquality(h, bytes, m, Encoding(h, m).value, n, NumberAt(bytes, 55 + n, 2));
    }
  }

  /**
   * The decoder accepts exactly the bytes that stand for some manifest, and returns that manifest:
   * whatever it accepts re-encodes to the same bytes at full length, and nothing canonical is refused.
   */
  method DecodeAttachmentManifest(h: Host, bytes: seq<byte>) returns (r: Option<Manifest>)
    ensures forall m :: r == Some(m) <==> Denotes(h, bytes, m)
  {
    forall m | Denotes(h, bytes, m) ensures Parsed(h, bytes) == Some(m) { DenotedParses(h, bytes, m); }
    var m := Parse(h, bytes);
    if m.None? { return None; }
    ParsedAndCanonical(h, bytes, m.value);
    var again := EncodeAttachmentManifest(h, m.value);
    if again.None? { return None; }
    var same := AgreesWith(again.value, bytes);
    if !same { return None; }
    return m;
  }
}

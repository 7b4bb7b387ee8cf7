/** Bytes and the big-endian integers of the attachment wire formats. */
module Bytes {
  import opened Common

  type byte = b: int | 0 <= b < 256

  const MAX_SAFE_INTEGER: int := 9007199254740991

  function Pow256(width: nat): (p: int)
    ensures p > 0
  {
    if width == 0 then 1 else 256 * Pow256(width - 1)
  }

  /** Most significant byte first. */
  function BigEndian(value: nat, width: nat): (bytes: seq<byte>)
    ensures |bytes| == width
  {
    if width == 0 then [] else BigEndian(value / 256, width - 1) + [value % 256]
  }

  function FromBigEndian(bytes: seq<byte>): (value: nat)
  {
    if bytes == [] then 0 else FromBigEndian(bytes[..|bytes| - 1]) * 256 + bytes[|bytes| - 1]
  }

  /** Reading back what was written gives the same number, for every number that fits. */
  lemma {:induction false} BigEndianRoundTrip(value: nat, width: nat)
    requires value < Pow256(width)
    ensures FromBigEndian(BigEndian(value, width)) == value
  {
    if width > 0 {
      BigEndianRoundTrip(value / 256, width - 1);
      var bytes := BigEndian(value, width);
      assert bytes[..|bytes| - 1] == BigEndian(value / 256, width - 1);
    }
  }

  /** Writing back what was read gives the same bytes, and what was read always fits. */
  lemma {:induction false} FromBigEndianRoundTrip(bytes: seq<byte>)
    ensures FromBigEndian(bytes) < Pow256(|bytes|)
    ensures BigEndian(FromBigEndian(bytes), |bytes|) == bytes
  {
    if bytes != [] {
      var front := bytes[..|bytes| - 1];
      FromBigEndianRoundTrip(front);
      assert FromBigEndian(bytes) / 256 == FromBigEndian(front);
      assert bytes == front + [bytes[|bytes| - 1]];
    }
  }

  /** Equal encodings of one width come from equal numbers. */
  lemma BigEndianInjective(a: nat, b: nat, width: nat)
    requires a < Pow256(width) && b < Pow256(width)
    requires BigEndian(a, width) == BigEndian(b, width)
    ensures a == b
  {
    BigEndianRoundTrip(a, width);
    BigEndianRoundTrip(b, width);
  }

  /**
   * The buffer-filling loop both formats share: it rejects numbers that are not safe integers or do not
   * fit the width, and otherwise fills a fresh buffer from its last byte to its first.
   */
  method Integer(value: int, width: nat) returns (r: Result<seq<byte>, ()>)
    ensures r.Ok? <==> 0 <= value <= MAX_SAFE_INTEGER && value < Pow256(width)
    ensures r.Ok? ==> r.value == BigEndian(value, width)
  {
    if value < 0 || value > MAX_SAFE_INTEGER || value >= Pow256(width) {
      return Err(());
    }
    var result := new byte[width];
    var rest: nat := value;
    var i := width - 1;
    while i >= 0
      invariant -1 <= i <= width - 1
      invariant BigEndian(value, width) == BigEndian(rest, i + 1) + result[i + 1..]
    {
      ghost var done := result[i + 1..];
      result[i] := rest % 256;
      assert result[i..] == [rest % 256] + done;
      rest := rest / 256;
      i := i - 1;
    }
    assert result[0..] == result[..];
    return Ok(result[..]);
  }

  function Flatten(items: seq<seq<byte>>): (bytes: seq<byte>)
  {
    if items == [] then [] else Flatten(items[..|items| - 1]) + items[|items| - 1]
  }

  lemma {:induction false} FlattenPrefix(items: seq<seq<byte>>, n: nat)
    requires n <= |items|
    ensures |Flatten(items[..n])| <= |Flatten(items)|
  {
    if n < |items| {
      FlattenPrefix(items[..|items| - 1], n);
      assert items[..|items| - 1][..n] == items[..n];
    } else {
      assert items[..n] == items;
    }
  }

  lemma {:induction false} SumOfLengths(items: seq<seq<byte>>, n: nat)
    requires n < |items|
    ensures Flatten(items[..n + 1]) == Flatten(items[..n]) + items[n]
  {
    assert items[..n + 1][..n] == items[..n];
  }

  /** Joins the parts: one pass to size the buffer, one pass to copy every part to its offset. */
  method Concat(items: seq<seq<byte>>) returns (bytes: seq<byte>)
    ensures bytes == Flatten(items)
  {
    var total := 0;
    for k := 0 to |items|
      invariant total == |Flatten(items[..k])|
    {
      SumOfLengths(items, k);
      total := total + |items[k]|;
    }
    assert items[..|items|] == items;
    var out := new byte[total];
    var at := 0;
    for k := 0 to |items|
      invariant at == |Flatten(items[..k])| <= total
      invariant out[..at] == Flatten(items[..k])
    {
      SumOfLengths(items, k);
      FlattenPrefix(items, k + 1);
      ghost var before := out[..at];
      forall i | 0 <= i < |items[k]| {
        out[at + i] := items[k][i];
      }
      assert out[..at + |items[k]|] == before + items[k];
      at := at + |items[k]|;
    }
    bytes := out[..at];
  }
}

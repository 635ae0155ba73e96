/**
 * Byte strings and the fixed-width unsigned integer words of the wire
 * format: `int.to_bytes(4, 'big')` and `int.from_bytes(b, 'big')`.
 */
module Bytes {

  type Byte = x: int | 0 <= x < 256

  type Bytes = seq<Byte>

  /** First value that does not fit in a 4-byte word. */
  const TWO_32: int := 0x1_0000_0000

  /** `n.to_bytes(4, 'big')`: most significant byte first. */
  function U32(n: nat): (r: Bytes)
    requires n < TWO_32
    ensures |r| == 4
  {
    var q1 := n / 256;
    var q2 := q1 / 256;
    [q2 / 256, q2 % 256, q1 % 256, n % 256]
  }

  /** `int.from_bytes(b, 'big')` on a 4-byte word. */
  function FromU32(b: Bytes): (n: nat)
    requires |b| == 4
    ensures n < TWO_32
  {
    ((b[0] as int * 256 + b[1]) * 256 + b[2]) * 256 + b[3]
  }

  /** Decoding a word gives back the integer that was encoded. */
  lemma U32Inverse(n: nat)
    requires n < TWO_32
    ensures FromU32(U32(n)) == n
  {
    var q1 := n / 256;
    var q2 := q1 / 256;
    assert n == q1 * 256 + n % 256;
    assert q1 == q2 * 256 + q1 % 256;
    assert q2 == (q2 / 256) * 256 + q2 % 256;
  }

  /** Encoding a decoded word gives back the same four bytes: the codec is a bijection. */
  lemma FromU32Inverse(b: Bytes)
    requires |b| == 4
    ensures U32(FromU32(b)) == b
  {
    var n := FromU32(b);
    var q2: int := b[0] as int * 256 + b[1];
    var q1: int := q2 * 256 + b[2];
    assert n == q1 * 256 + b[3] as int;
    assert n / 256 == q1 && n % 256 == b[3];
    assert q1 / 256 == q2 && q1 % 256 == b[2];
    assert q2 / 256 == b[0] && q2 % 256 == b[1];
  }

  /** A prefix one element longer is the shorter prefix and that element. */
  lemma PrefixSnoc<T>(s: seq<T>, i: nat)
    requires i < |s|
    ensures s[..i + 1] == s[..i] + [s[i]]
  {
  }

  /** A sequence is its prefix followed by the matching suffix. */
  lemma PrefixSuffix<T>(s: seq<T>, j: nat)
    requires j <= |s|
    ensures s[..j] + s[j..] == s
  {
  }

  /** A non-empty sequence is all but its last element, then that element. */
  lemma DropLast<T>(s: seq<T>)
    requires s != []
    ensures s[..|s| - 1] + [s[|s| - 1]] == s
  {
  }
}

/**
 * SocketString: an in-memory stand-in for a socket. Its one operation
 * takes the first `length` bytes of a byte string and drops them.
 */
module SocketStrings {
  import opened Bytes

  function Min(a: int, b: int): int {
    if a < b then a else b
  }

  /**
   * Where `b[0:length]` stops and `b[length:]` starts under Python slice
   * rules for a string of `size` bytes: a negative length counts from the
   * end, and every bound is clamped to the string.
   */
  function Cut(length: int, size: nat): (k: nat)
    ensures k <= size
  {
    if length < 0 then (if size + length < 0 then 0 else size + length)
    else Min(length, size)
  }

  /**
   * One read of `length` bytes from `b`: the bytes returned and the bytes
   * left. Nothing is lost or reordered, and a non-negative request returns
   * as many bytes as were asked for or as remain, whichever is fewer.
   */
  function Split(b: Bytes, length: int): (r: (Bytes, Bytes))
    ensures r.0 + r.1 == b
    ensures 0 <= length ==> |r.0| == Min(length, |b|)
    ensures length < 0 ==> |r.1| == Min(-length, |b|)
  {
    var k := Cut(length, |b|);
    (b[..k], b[k..])
  }

  class SocketString {
    /** The bytes not read yet. */
    var bytesString: Bytes

    constructor (bytesString: Bytes)
      ensures this.bytesString == bytesString
    {
      this.bytesString := bytesString;
    }

    /** Returns the first `length` bytes and keeps the rest for the next read. */
    method CheckReceivedLength(length: int) returns (data: Bytes)
      modifies this
      ensures (data, bytesString) == Split(old(bytesString), length)
      ensures data + bytesString == old(bytesString)
      ensures 0 <= length ==> data == old(bytesString)[..Min(length, |old(bytesString)|)]
    {
      var k := Cut(length, |bytesString|);
      data := bytesString[0..k];
      bytesString := bytesString[k..];
    }

    /** The same read under its other name. */
    method GetFirstNBytes(length: int) returns (data: Bytes)
      modifies this
      ensures (data, bytesString) == Split(old(bytesString), length)
    {
      data := CheckReceivedLength(length);
    }
  }

  /** Asking for more bytes than remain is not an error: all of them come back and none are left. */
  lemma ShortReadDrains(b: Bytes, length: int)
    requires length >= |b|
    ensures Split(b, length) == (b, [])
  {
    assert b[..|b|] == b;
  }

  /** A read of zero bytes returns nothing and leaves the string as it was. */
  lemma ZeroRead(b: Bytes)
    ensures Split(b, 0) == ([], b)
  {
  }

  /** Reading `m` bytes and then `n` bytes returns what one read of `m + n` bytes returns, and leaves the same rest. */
  lemma ReadsCompose(b: Bytes, m: nat, n: nat)
    ensures Split(b, m).0 + Split(Split(b, m).1, n).0 == Split(b, m + n).0
    ensures Split(Split(b, m).1, n).1 == Split(b, m + n).1
  {
    var k := Cut(m, |b|);
    assert b[k..][..Cut(n, |b| - k)] == b[k..Cut(m + n, |b|)];
    assert b[..k] + b[k..Cut(m + n, |b|)] == b[..Cut(m + n, |b|)];
  }
}

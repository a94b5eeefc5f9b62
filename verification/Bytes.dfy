/** Bytes, as Node buffers hold them, and the fixed-width integers the image formats store in them. */
module Bytes {

  type Byte = x: int | 0 <= x < 256

  type Buffer = seq<Byte>

  function Int(b: Buffer, at: nat): (r: int)
    requires at < |b|
    ensures 0 <= r < 0x100
  {
    b[at]
  }

  function U16BE(b: Buffer, at: nat): (r: nat)
    requires at + 2 <= |b|
    ensures r < 0x1_0000
  {
    Int(b, at) * 0x100 + Int(b, at + 1)
  }

  function U32BE(b: Buffer, at: nat): (r: nat)
    requires at + 4 <= |b|
    ensures r < 0x1_0000_0000
  {
    Int(b, at) * 0x100_0000 + Int(b, at + 1) * 0x1_0000 + Int(b, at + 2) * 0x100 + Int(b, at + 3)
  }

  function U16LE(b: Buffer, at: nat): (r: nat)
    requires at + 2 <= |b|
    ensures r < 0x1_0000
  {
    Int(b, at) + Int(b, at + 1) * 0x100
  }

  function U24LE(b: Buffer, at: nat): (r: nat)
    requires at + 3 <= |b|
    ensures r < 0x100_0000
  {
    Int(b, at) + Int(b, at + 1) * 0x100 + Int(b, at + 2) * 0x1_0000
  }

  function U32LE(b: Buffer, at: nat): (r: nat)
    requires at + 4 <= |b|
    ensures r < 0x1_0000_0000
  {
    Int(b, at) + Int(b, at + 1) * 0x100 + Int(b, at + 2) * 0x1_0000 + Int(b, at + 3) * 0x100_0000
  }

  function PutU16BE(n: nat): (r: Buffer)
    requires n < 0x1_0000
    ensures |r| == 2 && U16BE(r, 0) == n
  {
    [n / 0x100, n % 0x100]
  }

  function PutU32BE(n: nat): (r: Buffer)
    requires n < 0x1_0000_0000
    ensures |r| == 4 && U32BE(r, 0) == n
  {
    var high, low := n / 0x1_0000, n % 0x1_0000;
    [high / 0x100, high % 0x100, low / 0x100, low % 0x100]
  }

  function PutU24LE(n: nat): (r: Buffer)
    requires n < 0x100_0000
    ensures |r| == 3 && U24LE(r, 0) == n
  {
    var high, low := n / 0x1_0000, n % 0x1_0000;
    [low % 0x100, low / 0x100, high]
  }

  function PutU32LE(n: nat): (r: Buffer)
    requires n < 0x1_0000_0000
    ensures |r| == 4 && U32LE(r, 0) == n
  {
    var high, low := n / 0x1_0000, n % 0x1_0000;
    [low % 0x100, low / 0x100, high % 0x100, high / 0x100]
  }

  lemma SubRange(b: Buffer, at: nat, length: nat, i: nat, j: nat)
    requires i <= j <= length && at + length <= |b|
    ensures b[at..at + length][i..j] == b[at + i..at + j]
  {
    var t := b[at..at + length];
    assert t[i..j] == t[..j][i..] && t[..j] == b[at..at + j];
  }

  lemma FourParts(a: Buffer, b: Buffer, c: Buffer, d: Buffer)
    ensures var w := a + b + c + d;
            && w[0..|a|] == a && w[|a|..|a| + |b|] == b && w[|a| + |b|..|a| + |b| + |c|] == c
            && w[|a| + |b| + |c|..|a| + |b| + |c| + |d|] == d
  {
    var ab, abc, w := a + b, a + b + c, a + b + c + d;
    assert w[..|abc|] == abc && w[|abc|..] == d;
    assert abc[..|ab|] == ab && abc[|ab|..] == c;
    assert w[|ab|..|abc|] == w[..|abc|][|ab|..] == c;
    assert w[|a|..|ab|] == w[..|abc|][..|ab|][|a|..] == b;
    assert w[0..|a|] == w[..|abc|][..|ab|][..|a|] == a;
  }
}

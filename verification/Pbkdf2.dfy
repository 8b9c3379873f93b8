/** PBKDF2 (section 5.2 of RFC 8018) over any pseudorandom function with a fixed output length; the password is
    already inside that function. */
module Pbkdf2 {

  type Byte = x: int | 0 <= x < 256

  type Bytes = seq<Byte>

  type Prf = Bytes -> Bytes

  ghost predicate Sized(prf: Prf, hLen: nat) { forall m: Bytes :: |prf(m)| == hLen }

  // ---- The definition ----

  /** INT(i): four bytes, most significant first. */
  function Int4(i: nat): Bytes {
    [i / 0x1000000 % 256, i / 0x10000 % 256, i / 0x100 % 256, i % 256]
  }

  /** U_j of block i. */
  function U(prf: Prf, salt: Bytes, i: nat, j: nat): Bytes
    requires j >= 1
  {
    if j == 1 then prf(salt + Int4(i)) else prf(U(prf, salt, i, j - 1))
  }

  function Pow2(n: nat): nat { if n == 0 then 1 else 2 * Pow2(n - 1) }

  /** Exclusive or of the low n bits. */
  function XorBits(a: nat, b: nat, n: nat): (c: nat)
    ensures c < Pow2(n)
  {
    if n == 0 then 0 else (a + b) % 2 + 2 * XorBits(a / 2, b / 2, n - 1)
  }

  function XorByte(a: Byte, b: Byte): Byte {
    assert Pow2(8) == 256 by { assert Pow2(4) == 16; }
    XorBits(a, b, 8)
  }

  function Xor(a: Bytes, b: Bytes): (c: Bytes)
    requires |a| == |b|
    ensures |c| == |a|
  {
    seq(|a|, k requires 0 <= k < |a| => XorByte(a[k], b[k]))
  }

  // ---- Exclusive or, bit by bit ----

  /** The i-th bit, the lowest first. */
  predicate Bit(a: nat, i: nat)
    decreases i
  {
    if i == 0 then a % 2 == 1 else Bit(a / 2, i - 1)
  }

  /** A bit of the result is set exactly when it is set in one of the two. */
  lemma {:induction false} XorBit(a: nat, b: nat, n: nat, i: nat)
    ensures Bit(XorBits(a, b, n), i) <==> i < n && Bit(a, i) != Bit(b, i)
    decreases n
  {
    if n == 0 {
      ZeroBit(i);
    } else {
      var r, q := (a + b) % 2, XorBits(a / 2, b / 2, n - 1);
      assert XorBits(a, b, n) == r + 2 * q;
      hide XorBits;
      LowBit(r, q, i);
      if i > 0 {
        XorBit(a / 2, b / 2, n - 1, i - 1);
      } else {
        Parity(a, b);
      }
    }
  }

  /** A low bit in front of the others. */
  lemma LowBit(r: nat, q: nat, i: nat)
    requires r < 2
    ensures Bit(r + 2 * q, i) <==> if i == 0 then r == 1 else Bit(q, i - 1)
  {
    assert (r + 2 * q) % 2 == r && (r + 2 * q) / 2 == q;
  }

  lemma Parity(a: nat, b: nat)
    ensures (a + b) % 2 == 1 <==> (a % 2 == 1) != (b % 2 == 1)
  {
  }

  lemma {:induction false} ZeroBit(i: nat)
    ensures !Bit(0, i)
  {
    if i > 0 {
      ZeroBit(i - 1);
    }
  }

  /** Numbers of n bits with the same bits are the same. */
  lemma {:induction false} BitsDetermine(a: nat, b: nat, n: nat)
    requires a < Pow2(n) && b < Pow2(n) && forall i: nat :: i < n ==> Bit(a, i) == Bit(b, i)
    ensures a == b
    decreases n
  {
    if n > 0 {
      forall i: nat | i < n - 1 ensures Bit(a / 2, i) == Bit(b / 2, i) {
        assert Bit(a, i + 1) == Bit(b, i + 1);
      }
      BitsDetermine(a / 2, b / 2, n - 1);
      assert Bit(a, 0) == Bit(b, 0);
    }
  }

  lemma XorByteUndone(a: Byte, b: Byte)
    ensures XorByte(XorByte(a, b), b) == a && XorByte(a, b) == XorByte(b, a)
  {
    assert Pow2(8) == 256 by { assert Pow2(4) == 16; }
    var c := XorByte(a, b);
    forall i: nat | i < 8 ensures Bit(XorByte(c, b), i) == Bit(a, i) && Bit(c, i) == Bit(XorByte(b, a), i) {
      XorBit(a, b, 8, i);
      XorBit(b, a, 8, i);
      XorBit(c, b, 8, i);
    }
    hide Bit, XorBits, XorByte, Pow2;
    BitsDetermine(XorByte(c, b), a, 8);
    BitsDetermine(c, XorByte(b, a), 8);
  }

  /** Mixing the same bytes in twice changes nothing, and the order does not matter. */
  lemma XorUndone(a: Bytes, b: Bytes)
    requires |a| == |b|
    ensures Xor(Xor(a, b), b) == a && Xor(a, b) == Xor(b, a)
  {
    hide XorByte;
    forall k | 0 <= k < |a| ensures XorByte(XorByte(a[k], b[k]), b[k]) == a[k] && XorByte(a[k], b[k]) == XorByte(b[k], a[k]) {
      XorByteUndone(a[k], b[k]);
    }
  }

  lemma USized(prf: Prf, hLen: nat, salt: Bytes, i: nat, j: nat)
    requires Sized(prf, hLen) && j >= 1
    ensures |U(prf, salt, i, j)| == hLen
  {
  }

  /** F: the exclusive or of U_1 to U_c. */
  ghost function F(prf: Prf, hLen: nat, salt: Bytes, c: nat, i: nat): (t: Bytes)
    requires Sized(prf, hLen) && c >= 1
    ensures |t| == hLen
  {
    USized(prf, hLen, salt, i, c);
    if c == 1 then U(prf, salt, i, 1) else Xor(F(prf, hLen, salt, c - 1, i), U(prf, salt, i, c))
  }

  /** T_1 to T_n, one after the other. */
  ghost function Blocks(prf: Prf, hLen: nat, salt: Bytes, c: nat, n: nat): (t: Bytes)
    requires Sized(prf, hLen) && c >= 1
    ensures |t| == n * hLen
  {
    if n == 0 then [] else Blocks(prf, hLen, salt, c, n - 1) + F(prf, hLen, salt, c, n)
  }

  function BlockCount(keyLen: nat, hLen: nat): nat
    requires hLen > 0
  {
    (keyLen + hLen - 1) / hLen
  }

  lemma BlocksCover(keyLen: nat, hLen: nat)
    requires hLen > 0
    ensures keyLen <= BlockCount(keyLen, hLen) * hLen < keyLen + hLen
  {
    var n := BlockCount(keyLen, hLen);
    assert keyLen + hLen - 1 == n * hLen + (keyLen + hLen - 1) % hLen;
  }

  /** The derived key: enough blocks, cut to length. */
  ghost function Derived(prf: Prf, hLen: nat, salt: Bytes, c: nat, keyLen: nat): (dk: Bytes)
    requires Sized(prf, hLen) && hLen > 0 && c >= 1
    ensures |dk| == keyLen
  {
    BlocksCover(keyLen, hLen);
    Blocks(prf, hLen, salt, c, BlockCount(keyLen, hLen))[..keyLen]
  }

  /** Two rounds and two blocks, written out. */
  lemma TwoBlocks(prf: Prf, hLen: nat, salt: Bytes)
    requires Sized(prf, hLen) && hLen > 0
    ensures var u, v := prf(salt + [0, 0, 0, 1]), prf(salt + [0, 0, 0, 2]);
      && |u| == |prf(u)| == |v| == |prf(v)| && Derived(prf, hLen, salt, 2, 2 * hLen) == Xor(u, prf(u)) + Xor(v, prf(v))
  {
    var u, v := prf(salt + [0, 0, 0, 1]), prf(salt + [0, 0, 0, 2]);
    assert Int4(1) == [0, 0, 0, 1] && Int4(2) == [0, 0, 0, 2];
    assert U(prf, salt, 1, 2) == prf(u) && U(prf, salt, 2, 2) == prf(v);
    BlocksCover(2 * hLen, hLen);
    TwoFit(hLen);
    hide XorByte, Int4, BlockCount;
    assert F(prf, hLen, salt, 2, 1) == Xor(u, prf(u)) && F(prf, hLen, salt, 2, 2) == Xor(v, prf(v));
    assert Blocks(prf, hLen, salt, 2, 1) == [] + Xor(u, prf(u));
    assert Blocks(prf, hLen, salt, 2, 2) == Xor(u, prf(u)) + Xor(v, prf(v));
  }

  lemma TwoFit(hLen: nat)
    requires hLen > 0
    ensures BlockCount(2 * hLen, hLen) == 2
  {
    var n := BlockCount(2 * hLen, hLen);
    BlocksCover(2 * hLen, hLen);
    assert n * hLen - 2 * hLen == (n - 2) * hLen;
    Between(n - 2, hLen);
  }

  lemma Between(k: int, hLen: nat)
    requires 0 <= k * hLen < hLen
    ensures k == 0
  {
  }

  /** The four bytes of a block number below 2^32 are its digits to base 256. */
  lemma Int4Value(i: nat)
    requires i < 0x1_0000_0000
    ensures var b := Int4(i); i == (b[0] as int) * 0x1000000 + (b[1] as int) * 0x10000 + (b[2] as int) * 0x100 + (b[3] as int)
  {
  }

  // ---- The computation in place ----

  /** Copy the next U into the buffer and mix it into the block in place. */
  method MixIn(next: Bytes, at: nat, dk: array<Byte>, u: array<Byte>)
    requires |next| == u.Length && at + u.Length <= dk.Length && dk != u
    modifies dk, u
    ensures u[..] == next && dk[..at] == old(dk[..at])
    ensures dk[at..at + u.Length] == Xor(old(dk[at..at + u.Length]), next)
  {
    hide XorByte;
    ghost var was := dk[at..at + u.Length];
    var x := 0;
    while x < u.Length
      invariant 0 <= x <= u.Length
      invariant dk[..at] == old(dk[..at]) && u[..x] == next[..x]
      invariant dk[at..at + x] == Xor(was[..x], next[..x])
      invariant dk[at + x..at + u.Length] == was[x..]
    {
      assert dk[at + x] == dk[at + x..at + u.Length][0] == was[x];
      u[x] := next[x];
      dk[at + x] := XorByte(dk[at + x], u[x]);
      x := x + 1;
      assert dk[at..at + x] == dk[at..at + x - 1] + [XorByte(was[x - 1], next[x - 1])];
      XorSnoc(was, next, x);
    }
    assert was[..x] == was && next[..x] == next;
  }

  lemma XorSnoc(a: Bytes, b: Bytes, x: nat)
    requires |a| == |b| && 0 < x <= |a|
    ensures Xor(a[..x], b[..x]) == Xor(a[..x - 1], b[..x - 1]) + [XorByte(a[x - 1], b[x - 1])]
  {
  }

  lemma NextU(prf: Prf, hLen: nat, salt: Bytes, n: nat, block: nat)
    requires Sized(prf, hLen) && n >= 2
    ensures U(prf, salt, block, n) == prf(U(prf, salt, block, n - 1)) && |U(prf, salt, block, n)| == hLen
    ensures F(prf, hLen, salt, n, block) == Xor(F(prf, hLen, salt, n - 1, block), U(prf, salt, block, n))
  {
    USized(prf, hLen, salt, block, n);
    hide Sized, Int4;
  }

  /** The first U fills the output slice and the running buffer. */
  method CopyIn(first: Bytes, at: nat, dk: array<Byte>, u: array<Byte>)
    requires |first| == u.Length && at + u.Length <= dk.Length && dk != u
    modifies dk, u
    ensures dk[..at] == old(dk[..at]) && dk[at..at + u.Length] == first && u[..] == first
  {
    var x := 0;
    while x < u.Length
      invariant 0 <= x <= u.Length
      invariant dk[..at] == old(dk[..at]) && dk[at..at + x] == first[..x] && u[..x] == first[..x]
    {
      dk[at + x], u[x] := first[x], first[x];
      x := x + 1;
      assert dk[at..at + x] == dk[at..at + x - 1] + [first[x - 1]] && u[..x] == u[..x - 1] + [first[x - 1]];
    }
  }

  /** The rounds after the first: the running buffer follows U, and every U is mixed in. An iteration count below 2
      mixes nothing. */
  method MixRounds(prf: Prf, ghost salt: Bytes, iter: int, ghost block: nat, at: nat, dk: array<Byte>, u: array<Byte>)
    requires Sized(prf, u.Length) && at + u.Length <= dk.Length && dk != u
    requires u[..] == U(prf, salt, block, 1) && dk[at..at + u.Length] == F(prf, u.Length, salt, 1, block)
    modifies dk, u
    ensures dk[..at] == old(dk[..at])
    ensures dk[at..at + u.Length] == F(prf, u.Length, salt, if iter < 1 then 1 else iter, block)
  {
    hide *;
    var n := 2;
    while n <= iter
      invariant 2 <= n && (iter >= 1 ==> n <= iter + 1) && (iter < 1 ==> n == 2)
      invariant dk[..at] == old(dk[..at])
      invariant u[..] == U(prf, salt, block, n - 1)
      invariant dk[at..at + u.Length] == F(prf, u.Length, salt, n - 1, block)
    {
      NextU(prf, u.Length, salt, n, block);
      var next := prf(u[..]);
      MixIn(next, at, dk, u);
      n := n + 1;
    }
  }

  /** One block at the end of the output: U_1 goes in and starts the running buffer, the later rounds are mixed in. */
  method FillBlock(prf: Prf, salt: Bytes, iter: int, block: nat, at: nat, dk: array<Byte>, u: array<Byte>)
    requires Sized(prf, u.Length) && at + u.Length <= dk.Length && dk != u
    modifies dk, u
    ensures dk[..at] == old(dk[..at])
    ensures dk[at..at + u.Length] == F(prf, u.Length, salt, if iter < 1 then 1 else iter, block)
  {
    var first := prf(salt + Int4(block));
    assert |first| == u.Length && first == U(prf, salt, block, 1) == F(prf, u.Length, salt, 1, block);
    hide *;
    CopyIn(first, at, dk, u);
    MixRounds(prf, salt, iter, block, at, dk, u);
  }

  /** The in-place computation is the standard's definition, for every salt, iteration count and key length. */
  method Pbkdf2(prf: Prf, hLen: nat, salt: Bytes, iter: int, keyLen: nat) returns (key: Bytes)
    requires Sized(prf, hLen) && hLen > 0
    ensures key == Derived(prf, hLen, salt, if iter < 1 then 1 else iter, keyLen)
  {
    hide F, Sized, BlockCount, XorByte, Blocks;
    var numBlocks := BlockCount(keyLen, hLen);
    BlocksCover(keyLen, hLen);
    ghost var c := if iter < 1 then 1 else iter;
    var dk := new Byte[numBlocks * hLen];
    var u := new Byte[hLen];
    var filled, block := 0, 1;
    NoBlocks(prf, hLen, salt, c);
    while block <= numBlocks
      invariant 1 <= block <= numBlocks + 1
      invariant filled == |Blocks(prf, hLen, salt, c, block - 1)| <= dk.Length
      invariant dk[..filled] == Blocks(prf, hLen, salt, c, block - 1)
    {
      OneMore(prf, hLen, salt, c, block, numBlocks);
      FillBlock(prf, salt, iter, block, filled, dk, u);
      assert dk[..filled + hLen] == dk[..filled] + dk[filled..filled + hLen];
      filled, block := filled + hLen, block + 1;
    }
    assert block - 1 == numBlocks;
    key := dk[..keyLen];
    assert dk[..filled][..keyLen] == key;
  }

  lemma NoBlocks(prf: Prf, hLen: nat, salt: Bytes, c: nat)
    requires Sized(prf, hLen) && c >= 1
    ensures Blocks(prf, hLen, salt, c, 0) == []
  {
  }

  lemma OneMore(prf: Prf, hLen: nat, salt: Bytes, c: nat, block: nat, numBlocks: nat)
    requires Sized(prf, hLen) && c >= 1 && 1 <= block <= numBlocks
    ensures Blocks(prf, hLen, salt, c, block) == Blocks(prf, hLen, salt, c, block - 1) + F(prf, hLen, salt, c, block)
    ensures |Blocks(prf, hLen, salt, c, block - 1)| + hLen <= numBlocks * hLen
  {
    hide F, Sized;
    assert numBlocks * hLen == (block - 1) * hLen + (numBlocks - block + 1) * hLen;
    assert (numBlocks - block + 1) * hLen >= hLen;
  }
}

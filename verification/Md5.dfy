/** The streaming part of MD5 (minidownloader/md5.c) on a little-endian machine whose
    unsigned long has 32 bits.

    The compression of one block is a parameter f, which Md5Transform describes; the rest is
    what RFC 1321 says of padding in sections 3.1 and 3.2, and of going through the blocks in
    section 3.4. */
module Md5 {

  type Byte = b: int | 0 <= b < 256
  type Word = w: int | 0 <= w < WORD

  const WORD: int := 0x1_0000_0000

  // --------------------------------------------------------- the digest of a message

  /** The chaining value after the whole blocks of d. */
  function Fold<S>(f: (S, seq<Byte>) -> S, s: S, d: seq<Byte>): S
    decreases |d|
  {
    if |d| < 64 then s else Fold(f, f(s, d[..64]), d[64..])
  }

  /** What is left of d after its whole blocks. */
  function Tail(d: seq<Byte>): (t: seq<Byte>)
    ensures |t| < 64
    decreases |d|
  {
    if |d| < 64 then d else Tail(d[64..])
  }

  function Zeros(n: nat): (z: seq<Byte>)
    ensures |z| == n && forall i :: 0 <= i < n ==> z[i] == 0
  {
    seq(n, _ => 0)
  }

  /** A word, low-order byte first. */
  function LittleEndian(w: Word): (b: seq<Byte>)
    ensures |b| == 4
  {
    [w % 0x100, (w / 0x100) % 0x100, (w / 0x1_0000) % 0x100, (w / 0x100_0000) % 0x100]
  }

  function Low(bits: nat): Word { bits % WORD }

  function High(bits: nat): Word { (bits / WORD) % WORD }

  /** The zero bytes of section 3.1 for a message of n bytes: up to 56 modulo 64. */
  function PadZeros(n: nat): (z: nat)
    ensures z < 64 && (n + 1 + z) % 64 == 56
  {
    (55 - n) % 64
  }

  /** Sections 3.1 and 3.2: a one bit, zeros, and the number of bits modulo 2^64, low-order
      word first. */
  function Padding(n: nat): seq<Byte> {
    [0x80] + Zeros(PadZeros(n)) + LittleEndian(Low(8 * n)) + LittleEndian(High(8 * n))
  }

  function Digest<S>(f: (S, seq<Byte>) -> S, init: S, m: seq<Byte>): S {
    Fold(f, init, m + Padding(|m|))
  }

  // --------------------------------------------------------------------- the context

  /** MD5Context; lo and hi are bits[0] and bits[1]. */
  datatype Context<S> = Context(buf: S, lo: Word, hi: Word, input: seq<Byte>)

  function Init<S>(init: S, input: seq<Byte>): Context<S> { Context(init, 0, 0, input) }

  /** minidownloader/md5.c:77-82, with its 32-bit wrap-around. */
  function AddBits<S>(c: Context<S>, len: nat): Context<S> {
    var lo := (c.lo + (len * 8) % WORD) % WORD;
    var carry := if lo < c.lo then 1 else 0;
    c.(lo := lo, hi := (c.hi + carry + len / 0x2000_0000) % WORD)
  }

  /** The bytes in the buffer: (bits[0] >> 3) & 0x3f. */
  function Used(lo: Word): nat { (lo / 8) % 64 }

  /** minidownloader/md5.c:104-114. */
  function Blocks<S>(f: (S, seq<Byte>) -> S, c: Context<S>, data: seq<Byte>): (d: Context<S>)
    requires |c.input| == 64
    ensures |d.input| == 64 && d.lo == c.lo && d.hi == c.hi
    decreases |data|
  {
    if 64 <= |data| then Blocks(f, c.(input := data[..64], buf := f(c.buf, data[..64])), data[64..])
    else c.(input := data + c.input[|data|..])
  }

  /** minidownloader/md5.c:88-114, with t bytes in the buffer. */
  function Absorb<S>(f: (S, seq<Byte>) -> S, c: Context<S>, t: nat, data: seq<Byte>): (d: Context<S>)
    requires |c.input| == 64 && t < 64
    ensures |d.input| == 64 && d.lo == c.lo && d.hi == c.hi
  {
    if t == 0 then Blocks(f, c, data)
    else if |data| < 64 - t then c.(input := c.input[..t] + data + c.input[t + |data|..])
    else
      var full := c.input[..t] + data[..64 - t];
      Blocks(f, c.(input := full, buf := f(c.buf, full)), data[64 - t..])
  }

  /** minidownloader/md5.c:72-115. */
  function Update<S>(f: (S, seq<Byte>) -> S, c: Context<S>, data: seq<Byte>): (d: Context<S>)
    requires |c.input| == 64
    ensures |d.input| == 64
  {
    Absorb(f, AddBits(c, |data|), Used(c.lo), data)
  }

  /** minidownloader/md5.c:127-157. */
  function Final<S>(f: (S, seq<Byte>) -> S, c: Context<S>): S
    requires |c.input| == 64
  {
    var t := Used(c.lo);
    var count := 63 - t;
    var length := LittleEndian(c.lo) + LittleEndian(c.hi);
    if count < 8 then
      var first := f(c.buf, c.input[..t] + [0x80] + Zeros(count));
      f(first, Zeros(56) + length)
    else f(c.buf, (c.input[..t] + [0x80] + Zeros(count - 8)) + length)
  }

  // --------------------------------------------------------------------- its meaning

  lemma {:induction false} TailLength(d: seq<Byte>)
    ensures |Tail(d)| == |d| % 64
    decreases |d|
  {
    if 64 <= |d| {
      TailLength(d[64..]);
    }
  }

  /** More data go on from the chaining value with the tail in front of them. */
  lemma {:induction false} FoldAppend<S>(f: (S, seq<Byte>) -> S, s: S, m: seq<Byte>, d: seq<Byte>)
    ensures Fold(f, s, m + d) == Fold(f, Fold(f, s, m), Tail(m) + d)
    ensures Tail(m + d) == Tail(Tail(m) + d)
    decreases |m|
  {
    if 64 <= |m| {
      assert (m + d)[..64] == m[..64] && (m + d)[64..] == m[64..] + d;
      FoldAppend(f, f(s, m[..64]), m[64..], d);
    }
  }

  lemma {:induction false} BlocksFold<S>(f: (S, seq<Byte>) -> S, c: Context<S>, data: seq<Byte>)
    requires |c.input| == 64
    ensures var d := Blocks(f, c, data);
      d.buf == Fold(f, c.buf, data) && d.input[..|Tail(data)|] == Tail(data)
    decreases |data|
  {
    if 64 <= |data| {
      BlocksFold(f, c.(input := data[..64], buf := f(c.buf, data[..64])), data[64..]);
    }
  }

  lemma AbsorbFolds<S>(f: (S, seq<Byte>) -> S, c: Context<S>, t: nat, data: seq<Byte>)
    requires |c.input| == 64 && t < 64
    ensures var d, all := Absorb(f, c, t, data), c.input[..t] + data;
      d.buf == Fold(f, c.buf, all) && d.input[..|Tail(all)|] == Tail(all)
  {
    var all := c.input[..t] + data;
    if t == 0 {
      assert all == data;
      BlocksFold(f, c, data);
    } else if |data| < 64 - t {
      assert Absorb(f, c, t, data).input[..|all|] == all;
    } else {
      var full := c.input[..t] + data[..64 - t];
      assert all[..64] == full && all[64..] == data[64 - t..];
      BlocksFold(f, c.(input := full, buf := f(c.buf, full)), data[64 - t..]);
    }
  }

  /** The context stands for the message m. */
  ghost predicate Holds<S>(f: (S, seq<Byte>) -> S, init: S, c: Context<S>, m: seq<Byte>) {
    && |c.input| == 64
    && c.lo == Low(8 * |m|) && c.hi == High(8 * |m|)
    && c.buf == Fold(f, init, m)
    && c.input[..|Tail(m)|] == Tail(m)
  }

  lemma Split(a: nat, q: nat, r: nat)
    requires r < WORD && a == WORD * q + r
    ensures a / WORD == q && a % WORD == r
  {
  }

  /** The carry from bits[0] to bits[1] is right. */
  lemma AddBitsAdds<S>(c: Context<S>, n: nat, len: nat)
    requires c.lo == Low(8 * n) && c.hi == High(8 * n)
    ensures var d := AddBits(c, len); d.lo == Low(8 * (n + len)) && d.hi == High(8 * (n + len))
  {
    var a, b := 8 * n, len * 8;
    var qa, ra, qb, rb := a / WORD, a % WORD, b / WORD, b % WORD;
    assert qb == len / 0x2000_0000;
    if ra + rb < WORD {
      Split(a + b, qa + qb, ra + rb);
      HighSum(qa, qb);
    } else {
      Split(a + b, qa + qb + 1, ra + rb - WORD);
      HighSum(qa, qb + 1);
    }
  }

  lemma HighSum(q: nat, r: nat)
    ensures (q % WORD + r) % WORD == (q + r) % WORD
  {
  }

  lemma UsedIsTail(m: seq<Byte>)
    ensures Used(Low(8 * |m|)) == |Tail(m)|
  {
    TailLength(m);
    LowBits(|m|);
  }

  lemma LowBits(n: nat)
    ensures ((8 * n) % WORD / 8) % 64 == n % 64
  {
    var q, r := (8 * n) / WORD, (8 * n) % WORD;
    assert 8 * n == WORD * q + r;
    assert r / 8 == n - 0x2000_0000 * q;
    Same64(n - 0x2000_0000 * q, n, 0x80_0000 * q);
  }

  lemma Same64(a: nat, b: nat, k: nat)
    requires b == a + 64 * k
    ensures a % 64 == b % 64
  {
    var q, r := a / 64, a % 64;
    assert b == 64 * (q + k) + r;
  }

  /** An update appends its data to the message. */
  lemma UpdateAppends<S>(f: (S, seq<Byte>) -> S, init: S, c: Context<S>, m: seq<Byte>, data: seq<Byte>)
    requires Holds(f, init, c, m)
    ensures Holds(f, init, Update(f, c, data), m + data)
  {
    UsedIsTail(m);
    AddBitsAdds(c, |m|, |data|);
    AbsorbFolds(f, AddBits(c, |data|), Used(c.lo), data);
    FoldAppend(f, init, m, data);
  }

  lemma PadOne(n: nat)
    requires n % 64 < 56
    ensures PadZeros(n) == 55 - n % 64
  {
  }

  lemma PadTwo(n: nat)
    requires 56 <= n % 64
    ensures PadZeros(n) == 119 - n % 64
  {
  }

  lemma FoldOne<S>(f: (S, seq<Byte>) -> S, s: S, d: seq<Byte>)
    requires |d| == 64
    ensures Fold(f, s, d) == f(s, d)
  {
    assert d[..64] == d;
  }

  lemma FoldTwo<S>(f: (S, seq<Byte>) -> S, s: S, a: seq<Byte>, b: seq<Byte>)
    requires |a| == 64 && |b| == 64
    ensures Fold(f, s, a + b) == f(f(s, a), b)
  {
    assert (a + b)[..64] == a && (a + b)[64..] == b;
    FoldOne(f, f(s, a), b);
  }

  /** The last step gives the digest of the padded message. */
  lemma FinalIsDigest<S>(f: (S, seq<Byte>) -> S, init: S, c: Context<S>, m: seq<Byte>)
    requires Holds(f, init, c, m)
    ensures Final(f, c) == Digest(f, init, m)
  {
    UsedIsTail(m);
    TailLength(m);
    FoldAppend(f, init, m, Padding(|m|));
    var t, tail := Used(c.lo), Tail(m);
    var length := LittleEndian(c.lo) + LittleEndian(c.hi);
    if t < 56 {
      PadOne(|m|);
      var block := tail + [0x80] + Zeros(55 - t) + length;
      assert tail + Padding(|m|) == block;
      FoldOne(f, c.buf, block);
    } else {
      PadTwo(|m|);
      var first, second := tail + [0x80] + Zeros(63 - t), Zeros(56) + length;
      assert tail + Padding(|m|) == first + second;
      FoldTwo(f, c.buf, first, second);
    }
  }

  function Updates<S>(f: (S, seq<Byte>) -> S, c: Context<S>, parts: seq<seq<Byte>>): (d: Context<S>)
    requires |c.input| == 64
    ensures |d.input| == 64
    decreases |parts|
  {
    if parts == [] then c else Updates(f, Update(f, c, parts[0]), parts[1..])
  }

  function Concat(parts: seq<seq<Byte>>): seq<Byte> {
    if parts == [] then [] else parts[0] + Concat(parts[1..])
  }

  lemma {:induction false} UpdatesAppend<S>(
      f: (S, seq<Byte>) -> S, init: S, c: Context<S>, m: seq<Byte>, parts: seq<seq<Byte>>)
    requires Holds(f, init, c, m)
    ensures Holds(f, init, Updates(f, c, parts), m + Concat(parts))
    decreases |parts|
  {
    if parts == [] {
      assert m + [] == m;
    } else {
      UpdateAppends(f, init, c, m, parts[0]);
      UpdatesAppend(f, init, Update(f, c, parts[0]), m + parts[0], parts[1..]);
      assert (m + parts[0]) + Concat(parts[1..]) == m + Concat(parts);
    }
  }

  /** However a message is cut into updates, the result is the digest of the whole. */
  lemma AnySplit<S>(f: (S, seq<Byte>) -> S, init: S, input: seq<Byte>, parts: seq<seq<Byte>>)
    requires |input| == 64
    ensures Final(f, Updates(f, Init(init, input), parts)) == Digest(f, init, Concat(parts))
  {
    UpdatesAppend(f, init, Init(init, input), [], parts);
    assert [] + Concat(parts) == Concat(parts);
    FinalIsDigest(f, init, Updates(f, Init(init, input), parts), Concat(parts));
  }

  // ------------------------------------------------------------------ the code in place

  /** MD5Context, with its 64-byte buffer. */
  class Md5Context<S> {
    const f: (S, seq<Byte>) -> S
    var buf: S
    var lo: Word
    var hi: Word
    const input: array<Byte>

    function Abs(): Context<S>
      reads this, input
    {
      Context(buf, lo, hi, input[..])
    }

    /** minidownloader/md5.c:56-66. */
    constructor (f: (S, seq<Byte>) -> S, init: S)
      ensures this.f == f && fresh(input) && input.Length == 64
      ensures Abs() == Init(init, input[..])
    {
      this.f := f;
      buf, lo, hi := init, 0, 0;
      input := new Byte[64];
    }

    /** memcpy into the buffer at t. */
    method Copy(t: nat, data: seq<Byte>)
      requires t + |data| <= input.Length
      modifies input
      ensures input[..] == old(input[..t]) + data + old(input[t + |data|..])
    {
      forall i | 0 <= i < |data| {
        input[t + i] := data[i];
      }
    }

    method Transform()
      requires input.Length == 64
      modifies this`buf
      ensures buf == f(old(buf), input[..])
    {
      buf := f(buf, input[..]);
    }

    /** minidownloader/md5.c:79-82. */
    method CountBits(len: nat)
      modifies this`lo, this`hi
      ensures Abs() == AddBits(old(Abs()), len)
    {
      var t := lo;
      lo := (t + (len * 8) % WORD) % WORD;
      if lo < t {
        hi := (hi + 1) % WORD;
      }
      CarryOnce(hi, len / 0x2000_0000);
      CarryOnce(old(hi), 1);
      CarryTwice(old(hi), len / 0x2000_0000);
      hi := (hi + len / 0x2000_0000) % WORD;
    }

    /** minidownloader/md5.c:104-114. */
    method WholeBlocks(data: seq<Byte>)
      requires input.Length == 64
      modifies this, input
      ensures Abs() == Blocks(f, old(Abs()), data)
    {
      var rest := data;
      while 64 <= |rest|
        invariant Blocks(f, Abs(), rest) == Blocks(f, old(Abs()), data)
        decreases |rest|
      {
        Copy(0, rest[..64]);
        assert input[..] == rest[..64];
        Transform();
        rest := rest[64..];
      }
      Copy(0, rest);
    }

    /** minidownloader/md5.c:72-115; len is an unsigned int. */
    method Md5Update(data: seq<Byte>)
      requires input.Length == 64 && |data| < WORD
      modifies this, input
      ensures Abs() == Update(f, old(Abs()), data)
    {
      var t := Used(lo);
      CountBits(|data|);
      var rest := data;
      if t != 0 {
        if |data| < 64 - t {
          Copy(t, data);
          assert input[..] == old(input[..])[..t] + data + old(input[..])[t + |data|..];
          return;
        }
        Copy(t, data[..64 - t]);
        assert input[..] == old(input[..])[..t] + data[..64 - t];
        Transform();
        rest := data[64 - t..];
      }
      WholeBlocks(rest);
    }

    /** minidownloader/md5.c:121-159. */
    method Md5Final() returns (digest: S)
      requires input.Length == 64
      modifies this, input
      ensures digest == Final(f, old(Abs()))
    {
      var t := Used(lo);
      ghost var tail := input[..t];
      Copy(t, [0x80]);
      var count := 63 - t;
      if count < 8 {
        Copy(t + 1, Zeros(count));
        assert input[..] == tail + [0x80] + Zeros(count);
        Transform();
        Copy(0, Zeros(56));
        PutLength(Zeros(56));
      } else {
        Copy(t + 1, Zeros(count - 8));
        assert input[..56] == tail + [0x80] + Zeros(count - 8);
        PutLength(tail + [0x80] + Zeros(count - 8));
      }
      Transform();
      digest := buf;
    }

    /** Lines 154 and 155, on a little-endian machine. */
    method PutLength(ghost before: seq<Byte>)
      requires input.Length == 64 && |before| == 56 && input[..56] == before
      modifies input
      ensures input[..] == before + (LittleEndian(lo) + LittleEndian(hi))
    {
      Copy(56, LittleEndian(lo));
      Copy(60, LittleEndian(hi));
    }
  }

  lemma CarryOnce(h: Word, n: nat)
    ensures (h + n) % WORD == ((h % WORD) + n) % WORD
  {
  }

  lemma CarryTwice(h: Word, n: nat)
    ensures ((h + 1) % WORD + n) % WORD == (h + 1 + n) % WORD
  {
  }
}

module Utf {
  /* The converters between UTF-8 and UTF-16 (minidownloader/encode.c).

     Octets, 16-bit words and code points are bit vectors of one width, as the C code
     computes them in long; the subset types say how much of it is used. Facts about
     single bits are proved one at a time, so that the rest never looks at a bit. */

  type Byte = b: bv32 | b < 0x100
  type Word = w: bv32 | w < 0x1_0000

  /** A Unicode scalar value: a code point that is not a surrogate. */
  type Scalar = c: bv32 | c < 0xD800 || 0xE000 <= c < 0x11_0000

  // ---------------------------------------------------------------- the two forms

  function Lead2(c: bv32): bv32 { 0xC0 | (c >> 6) }

  function Lead3(c: bv32): bv32 { 0xE0 | (c >> 12) }

  function Lead4(c: bv32): bv32 { 0xF0 | (c >> 18) }

  /** The continuation octets: the six bits of c from bit 0, 6 and 12 up. */
  function Tail0(c: bv32): Byte { 0x80 | (c & 0x3F) }

  function Tail6(c: bv32): Byte { 0x80 | ((c >> 6) & 0x3F) }

  function Tail12(c: bv32): Byte { 0x80 | ((c >> 12) & 0x3F) }

  /** Section 3 of RFC 3629. */
  function Utf8(c: Scalar): (s: seq<Byte>)
    ensures 1 <= |s| <= 4
  {
    if c < 0x80 then [c]
    else if c < 0x800 then [Lead2(c), Tail0(c)]
    else if c < 0x1_0000 then [Lead3(c), Tail6(c), Tail0(c)]
    else [Lead4(c), Tail12(c), Tail6(c), Tail0(c)]
  }

  function High(c: bv32): bv32 { 0xD800 | ((c - 0x1_0000) >> 10) }

  function Low(c: bv32): Word { 0xDC00 | ((c - 0x1_0000) & 0x3FF) }

  /** Section 2.1 of RFC 2781. */
  function Utf16(c: Scalar): (s: seq<Word>)
    ensures 1 <= |s| <= 2
  {
    if c < 0x1_0000 then [c] else [High(c), Low(c)]
  }

  /** The concatenation of f over t. */
  function Flat<A, B>(f: A -> seq<B>, t: seq<A>): seq<B> {
    if t == [] then [] else f(t[0]) + Flat(f, t[1..])
  }

  lemma {:induction false} FlatAppend<A, B>(f: A -> seq<B>, t: seq<A>, c: A)
    ensures Flat(f, t + [c]) == Flat(f, t) + f(c)
  {
    if t == [] {
      assert Flat(f, [c]) == f(c) + Flat(f, []);
    } else {
      FlatAppend(f, t[1..], c);
      assert (t + [c])[1..] == t[1..] + [c];
    }
  }

  function Utf8s(t: seq<Scalar>): seq<Byte> { Flat(Utf8, t) }

  function Utf16s(t: seq<Scalar>): seq<Word> { Flat(Utf16, t) }

  // ------------------------------------------------------- the grammar, octet by octet

  function Join2(b0: bv32, b1: bv32): bv32 { ((b0 & 0x1F) << 6) | (b1 & 0x3F) }

  function Join3(b0: bv32, b1: bv32, b2: bv32): bv32 {
    ((b0 & 0x0F) << 12) | ((b1 & 0x3F) << 6) | (b2 & 0x3F)
  }

  function Join4(b0: bv32, b1: bv32, b2: bv32, b3: bv32): bv32 {
    ((b0 & 0x07) << 18) | ((b1 & 0x3F) << 12) | ((b2 & 0x3F) << 6) | (b3 & 0x3F)
  }

  predicate Trail(b: bv32) { 0x80 <= b <= 0xBF }

  predicate Char2(b0: bv32, b1: bv32) { 0xC2 <= b0 <= 0xDF && Trail(b1) }

  predicate Char3(b0: bv32, b1: bv32, b2: bv32) {
    && Trail(b2)
    && (|| (b0 == 0xE0 && 0xA0 <= b1 <= 0xBF)
        || (0xE1 <= b0 <= 0xEC && Trail(b1))
        || (b0 == 0xED && 0x80 <= b1 <= 0x9F)
        || (0xEE <= b0 <= 0xEF && Trail(b1)))
  }

  predicate Char4(b0: bv32, b1: bv32, b2: bv32, b3: bv32) {
    && Trail(b2) && Trail(b3)
    && (|| (b0 == 0xF0 && 0x90 <= b1 <= 0xBF)
        || (0xF1 <= b0 <= 0xF3 && Trail(b1))
        || (b0 == 0xF4 && 0x80 <= b1 <= 0x8F))
  }

  // Every character of the grammar is the encoding of what its octets join to.

  lemma Range2(b0: bv32, b1: bv32)
    requires Char2(b0, b1)
    ensures 0x80 <= Join2(b0, b1) < 0x800
  {
  }

  lemma Lead2Join(b0: bv32, b1: bv32)
    requires Char2(b0, b1)
    ensures Lead2(Join2(b0, b1)) == b0
  {
  }

  lemma Tail2Join(b0: bv32, b1: bv32)
    requires Char2(b0, b1)
    ensures Tail0(Join2(b0, b1)) == b1
  {
  }

  lemma Range3(b0: bv32, b1: bv32, b2: bv32)
    requires Char3(b0, b1, b2)
    ensures 0x800 <= Join3(b0, b1, b2) < 0x1_0000
    ensures Join3(b0, b1, b2) < 0xD800 || 0xE000 <= Join3(b0, b1, b2)
  {
  }

  lemma Lead3Join(b0: bv32, b1: bv32, b2: bv32)
    requires Char3(b0, b1, b2)
    ensures Lead3(Join3(b0, b1, b2)) == b0
  {
  }

  lemma Tail3Join(b0: bv32, b1: bv32, b2: bv32)
    requires Char3(b0, b1, b2)
    ensures Tail6(Join3(b0, b1, b2)) == b1
    ensures Tail0(Join3(b0, b1, b2)) == b2
  {
  }

  lemma Range4(b0: bv32, b1: bv32, b2: bv32, b3: bv32)
    requires Char4(b0, b1, b2, b3)
    ensures 0x1_0000 <= Join4(b0, b1, b2, b3) < 0x11_0000
  {
  }

  lemma Lead4Join(b0: bv32, b1: bv32, b2: bv32, b3: bv32)
    requires Char4(b0, b1, b2, b3)
    ensures Lead4(Join4(b0, b1, b2, b3)) == b0
  {
  }

  lemma Tail4Join(b0: bv32, b1: bv32, b2: bv32, b3: bv32)
    requires Char4(b0, b1, b2, b3)
    ensures Tail12(Join4(b0, b1, b2, b3)) == b1
    ensures Tail6(Join4(b0, b1, b2, b3)) == b2
    ensures Tail0(Join4(b0, b1, b2, b3)) == b3
  {
  }

  // Every encoding is a character of the grammar, and joining undoes it.

  lemma Char2Of(c: bv32)
    requires 0x80 <= c < 0x800
    ensures Char2(Lead2(c), Tail0(c))
  {
  }

  lemma Join2Of(c: bv32)
    requires 0x80 <= c < 0x800
    ensures Join2(Lead2(c), Tail0(c)) == c
  {
  }

  lemma Char3Of(c: bv32)
    requires 0x800 <= c < 0x1_0000 && (c < 0xD800 || 0xE000 <= c)
    ensures Char3(Lead3(c), Tail6(c), Tail0(c))
  {
  }

  lemma Join3Of(c: bv32)
    requires 0x800 <= c < 0x1_0000
    ensures Join3(Lead3(c), Tail6(c), Tail0(c)) == c
  {
  }

  lemma Char4Of(c: bv32)
    requires 0x1_0000 <= c < 0x11_0000
    ensures Char4(Lead4(c), Tail12(c), Tail6(c), Tail0(c))
  {
  }

  lemma Join4Of(c: bv32)
    requires 0x1_0000 <= c < 0x11_0000
    ensures Join4(Lead4(c), Tail12(c), Tail6(c), Tail0(c)) == c
  {
  }

  function Unpair(w0: bv32, w1: bv32): bv32 { 0x1_0000 + (((w0 & 0x3FF) << 10) | (w1 & 0x3FF)) }

  lemma PairOf(c: bv32)
    requires 0x1_0000 <= c < 0x11_0000
    ensures 0xD800 <= High(c) < 0xDC00 && 0xDC00 <= Low(c) < 0xE000
  {
  }

  lemma UnpairOf(c: bv32)
    requires 0x1_0000 <= c < 0x11_0000
    ensures Unpair(High(c), Low(c)) == c
  {
  }

  lemma UnpairRange(w0: bv32, w1: bv32)
    requires 0xD800 <= w0 < 0xDC00 && 0xDC00 <= w1 < 0xE000
    ensures 0x1_0000 <= Unpair(w0, w1) < 0x11_0000
  {
  }

  lemma HighUnpair(w0: bv32, w1: bv32)
    requires 0xD800 <= w0 < 0xDC00 && 0xDC00 <= w1 < 0xE000
    ensures High(Unpair(w0, w1)) == w0 && Low(Unpair(w0, w1)) == w1
  {
  }

  /** UTF8-char in section 4 of RFC 3629. */
  predicate Utf8Char(s: seq<Byte>) {
    || (|s| == 1 && s[0] < 0x80)
    || (|s| == 2 && Char2(s[0], s[1]))
    || (|s| == 3 && Char3(s[0], s[1], s[2]))
    || (|s| == 4 && Char4(s[0], s[1], s[2], s[3]))
  }

  /** UTF8-octets in section 4 of RFC 3629. */
  ghost predicate Utf8Octets(s: seq<Byte>)
    decreases |s|
  {
    s == [] || exists n :: StartsUtf8Char(s, n) && Utf8Octets(s[n..])
  }

  predicate StartsUtf8Char(s: seq<Byte>, n: int) {
    1 <= n <= |s| && Utf8Char(s[..n])
  }

  /** The code point that a character of the grammar stands for. */
  function CodePoint(s: seq<Byte>): (c: Scalar)
    requires Utf8Char(s)
  {
    if |s| == 1 then s[0]
    else if |s| == 2 then Range2(s[0], s[1]); Join2(s[0], s[1])
    else if |s| == 3 then Range3(s[0], s[1], s[2]); Join3(s[0], s[1], s[2])
    else Range4(s[0], s[1], s[2], s[3]); Join4(s[0], s[1], s[2], s[3])
  }

  lemma Utf8OfCodePoint(s: seq<Byte>)
    requires Utf8Char(s)
    ensures Utf8(CodePoint(s)) == s
  {
    if |s| == 2 {
      Range2(s[0], s[1]);
      Lead2Join(s[0], s[1]);
      Tail2Join(s[0], s[1]);
    } else if |s| == 3 {
      Range3(s[0], s[1], s[2]);
      Lead3Join(s[0], s[1], s[2]);
      Tail3Join(s[0], s[1], s[2]);
    } else if |s| == 4 {
      Range4(s[0], s[1], s[2], s[3]);
      Lead4Join(s[0], s[1], s[2], s[3]);
      Tail4Join(s[0], s[1], s[2], s[3]);
    }
  }

  lemma CodePointOfUtf8(c: Scalar)
    ensures Utf8Char(Utf8(c)) && CodePoint(Utf8(c)) == c
  {
    if 0x80 <= c < 0x800 {
      Char2Of(c);
      Join2Of(c);
    } else if 0x800 <= c < 0x1_0000 {
      Char3Of(c);
      Join3Of(c);
    } else if 0x1_0000 <= c {
      Char4Of(c);
      Join4Of(c);
    }
  }

  lemma LeadOctet(s: seq<Byte>)
    requires Utf8Char(s)
    ensures |s| == if s[0] < 0x80 then 1 else if s[0] < 0xE0 then 2 else if s[0] < 0xF0 then 3 else 4
  {
  }

  /** A string starts with at most one character, so it is cut into characters in one way. */
  lemma Utf8Prefix(c: Scalar, d: Scalar, s: seq<Byte>)
    requires Utf8(c) <= s && Utf8(d) <= s
    ensures c == d
  {
    CodePointOfUtf8(c);
    CodePointOfUtf8(d);
    LeadOctet(Utf8(c));
    LeadOctet(Utf8(d));
    assert Utf8(c)[0] == s[0] && Utf8(d)[0] == s[0];
    assert Utf8(c) == s[..|Utf8(c)|] && Utf8(d) == s[..|Utf8(d)|];
  }

  ghost predicate StartsChar(s: seq<Byte>) {
    exists c: Scalar :: Utf8(c) <= s
  }

  // ---------------------------------------------------------------- the decoder

  /** minidownloader/encode.c:28-34: how many octets follow, and the mask that
      covers the length bits of the first one. */
  method LengthBits(ch: Byte) returns (ok: bool, follow: int, mask: bv32)
    requires 0xC0 <= ch
    ensures ok == (ch < 0xF8)
    ensures ok ==> Length(ch, follow, mask)
  {
    mask, follow := 0xE0, 1;
    while ch & mask == mask
      invariant Widened(ch, follow, mask)
      decreases 3 - follow
    {
      mask := mask | (mask >> 1);
      follow := follow + 1;
      if follow > 3 {
        return false, follow, mask;
      }
    }
    return true, follow, mask;
  }

  predicate Widened(ch: Byte, follow: int, mask: bv32) {
    || (follow == 1 && mask == 0xE0)
    || (follow == 2 && mask == 0xF0 && 0xE0 <= ch)
    || (follow == 3 && mask == 0xF8 && 0xF0 <= ch)
  }

  predicate Length(ch: Byte, follow: int, mask: bv32) {
    || (follow == 1 && mask == 0xE0 && 0xC0 <= ch < 0xE0)
    || (follow == 2 && mask == 0xF0 && 0xE0 <= ch < 0xF0)
    || (follow == 3 && mask == 0xF8 && 0xF0 <= ch < 0xF8)
  }

  /** The tests of minidownloader/encode.c:40-57 on the first two octets. */
  predicate ShapeOk(follow: int, mask: bv32, newch: bv32, next: Byte) {
    if follow == 1 then newch & 0x1E != 0
    else
      && !(newch == 0 && next & 0x3F & (mask << 1) == 0)
      && (follow == 2 ==> !(newch == 0x0D && next & 0x20 != 0))
      && (follow == 3 ==> newch <= 4 && !(newch == 4 && next & 0x30 != 0))
  }

  predicate IsTrail(b: Byte) { b & 0xC0 == 0x80 }

  lemma Shape2(b0: Byte, b1: Byte)
    requires 0xC0 <= b0 < 0xE0
    ensures ShapeOk(1, 0xE0, b0 & !0xE0, b1) && IsTrail(b1) <==> Char2(b0, b1)
  {
  }

  lemma Shape3(b0: Byte, b1: Byte, b2: Byte)
    requires 0xE0 <= b0 < 0xF0
    ensures ShapeOk(2, 0xF0, b0 & !0xF0, b1) && IsTrail(b1) && IsTrail(b2) <==> Char3(b0, b1, b2)
  {
  }

  lemma Shape4(b0: Byte, b1: Byte, b2: Byte, b3: Byte)
    requires 0xF0 <= b0 < 0xF8
    ensures ShapeOk(3, 0xF8, b0 & !0xF8, b1) && IsTrail(b1) && IsTrail(b2) && IsTrail(b3)
      <==> Char4(b0, b1, b2, b3)
  {
  }

  /** The value that the loop of minidownloader/encode.c:60-66 builds. */
  function Gather(first: bv32, s: seq<Byte>): bv32 {
    if s == [] then first else (Gather(first, s[..|s| - 1]) << 6) | (s[|s| - 1] & 0x3F)
  }

  lemma GatherStep(first: bv32, s: seq<Byte>, k: nat)
    requires k < |s|
    ensures Gather(first, s[..k + 1]) == (Gather(first, s[..k]) << 6) | (s[k] & 0x3F)
  {
    assert s[..k + 1][..k] == s[..k];
  }

  lemma Gather1(first: bv32, s: seq<Byte>)
    requires |s| == 1
    ensures Gather(first, s) == (first << 6) | (s[0] & 0x3F)
  {
  }

  lemma Gather2(first: bv32, s: seq<Byte>)
    requires |s| == 2
    ensures Gather(first, s) == (((first << 6) | (s[0] & 0x3F)) << 6) | (s[1] & 0x3F)
  {
    Gather1(first, s[..1]);
  }

  lemma Gather3(first: bv32, s: seq<Byte>)
    requires |s| == 3
    ensures Gather(first, s) == (((((first << 6) | (s[0] & 0x3F)) << 6) | (s[1] & 0x3F)) << 6) | (s[2] & 0x3F)
  {
    Gather2(first, s[..2]);
  }

  lemma JoinGather2(b0: Byte, b1: Byte)
    requires 0xC0 <= b0 < 0xE0
    ensures ((b0 & !0xE0) << 6) | (b1 & 0x3F) == Join2(b0, b1)
  {
  }

  lemma JoinGather3(b0: Byte, b1: Byte, b2: Byte)
    requires 0xE0 <= b0 < 0xF0
    ensures ((((b0 & !0xF0) << 6) | (b1 & 0x3F)) << 6) | (b2 & 0x3F) == Join3(b0, b1, b2)
  {
  }

  lemma JoinGather4(b0: Byte, b1: Byte, b2: Byte, b3: Byte)
    requires 0xF0 <= b0 < 0xF8
    ensures ((((((b0 & !0xF8) << 6) | (b1 & 0x3F)) << 6) | (b2 & 0x3F)) << 6) | (b3 & 0x3F) == Join4(b0, b1, b2, b3)
  {
  }

  ghost predicate Accepted(s: seq<Byte>, follow: int, mask: bv32)
    requires s != [] && Length(s[0], follow, mask)
  {
    && follow < |s|
    && ShapeOk(follow, mask, s[0] & !mask, s[1])
    && forall k :: 1 <= k <= follow ==> IsTrail(s[k])
  }

  lemma AcceptedIsChar(s: seq<Byte>, follow: int, mask: bv32)
    requires s != [] && Length(s[0], follow, mask) && follow < |s|
    ensures Accepted(s, follow, mask) <==> Utf8Char(s[..follow + 1])
  {
    if follow == 1 {
      Shape2(s[0], s[1]);
    } else if follow == 2 {
      Shape3(s[0], s[1], s[2]);
    } else {
      Shape4(s[0], s[1], s[2], s[3]);
    }
  }

  lemma GatherIsCodePoint(s: seq<Byte>, follow: int, mask: bv32)
    requires s != [] && |s| == follow + 1 && Length(s[0], follow, mask) && Utf8Char(s)
    ensures Gather(s[0] & !mask, s[1..]) == CodePoint(s)
  {
    if follow == 1 {
      Gather1(s[0] & !mask, s[1..]);
      JoinGather2(s[0], s[1]);
    } else if follow == 2 {
      Gather2(s[0] & !mask, s[1..]);
      JoinGather3(s[0], s[1], s[2]);
    } else {
      Gather3(s[0] & !mask, s[1..]);
      JoinGather4(s[0], s[1], s[2], s[3]);
    }
  }

  lemma RejectedStartsNoChar(s: seq<Byte>, follow: int, mask: bv32)
    requires s != [] && Length(s[0], follow, mask) && !Accepted(s, follow, mask)
    ensures !StartsChar(s)
  {
    forall c: Scalar | Utf8(c) <= s
      ensures false
    {
      CodePointOfUtf8(c);
      LeadOctet(Utf8(c));
      assert Utf8(c)[0] == s[0];
      assert Utf8(c) == s[..follow + 1];
      AcceptedIsChar(s, follow, mask);
    }
  }

  predicate BadLead(b: Byte) { 0x80 <= b < 0xC0 || 0xF8 <= b }

  lemma BadLeadStartsNoChar(s: seq<Byte>)
    requires s != [] && BadLead(s[0])
    ensures !StartsChar(s)
  {
    forall c: Scalar | Utf8(c) <= s
      ensures false
    {
      CodePointOfUtf8(c);
    }
  }

  /** Four octets, the first two of which pass the tests made before the room is
      looked at. */
  predicate FourOctets(s: seq<Byte>) {
    4 <= |s| && Length(s[0], 3, 0xF8) && ShapeOk(3, 0xF8, s[0] & !0xF8, s[1])
  }

  datatype Step = Malformed | NoRoom | Char(size: nat, code: Scalar)

  /** minidownloader/encode.c:60-66. */
  method Continue(s: seq<Byte>, follow: nat, first: bv32) returns (ok: bool, newch: bv32)
    requires follow <= |s|
    ensures ok <==> forall k :: 0 <= k < follow ==> IsTrail(s[k])
    ensures ok ==> newch == Gather(first, s[..follow])
  {
    newch := first;
    var k := 0;
    while k < follow
      invariant k <= follow
      invariant newch == Gather(first, s[..k])
      invariant forall i :: 0 <= i < k ==> IsTrail(s[i])
    {
      if !IsTrail(s[k]) {
        return false, newch;
      }
      GatherStep(first, s, k);
      newch := (newch << 6) | (s[k] & 0x3F);
      k := k + 1;
    }
    return true, newch;
  }

  lemma AcceptedCode(s: seq<Byte>, follow: int, mask: bv32)
    requires s != [] && Length(s[0], follow, mask) && Accepted(s, follow, mask)
    ensures Utf8Char(s[..follow + 1])
    ensures Gather(s[0] & !mask, s[1..][..follow]) == CodePoint(s[..follow + 1])
  {
    AcceptedIsChar(s, follow, mask);
    assert s[..follow + 1][1..] == s[1..][..follow];
    GatherIsCodePoint(s[..follow + 1], follow, mask);
  }

  lemma CodePointFits(s: seq<Byte>)
    requires Utf8Char(s)
    ensures Utf8(CodePoint(s)) == s
    ensures |Utf16(CodePoint(s))| == if |s| == 4 then 2 else 1
  {
    Utf8OfCodePoint(s);
  }

  /** minidownloader/encode.c:22-57: the tests made before the room is looked at. */
  method Head(s: seq<Byte>) returns (ok: bool, follow: int, mask: bv32)
    requires s != [] && 0x80 <= s[0]
    ensures ok ==> Length(s[0], follow, mask) && follow < |s| && ShapeOk(follow, mask, s[0] & !mask, s[1])
    ensures !ok ==> !StartsChar(s) && !FourOctets(s)
  {
    var ch := s[0];
    if ch & 0xC0 != 0xC0 {
      BadLeadStartsNoChar(s);
      return false, 0, 0;
    }
    ok, follow, mask := LengthBits(ch);
    if !ok {
      BadLeadStartsNoChar(s);
    } else if |s| <= follow || !ShapeOk(follow, mask, ch & !mask, s[1]) {
      RejectedStartsNoChar(s, follow, mask);
      ok := false;
    }
  }

  /** minidownloader/encode.c:20-67: one character of two octets or more. */
  method DecodeMulti(s: seq<Byte>, room: nat) returns (r: Step)
    requires s != [] && 0x80 <= s[0] && 1 <= room
    ensures r.Malformed? ==> !StartsChar(s) && !(room == 1 && FourOctets(s))
    ensures r.NoRoom? ==> room == 1 && FourOctets(s)
    ensures r.Char? ==> Utf8(r.code) <= s && |Utf8(r.code)| == r.size && |Utf16(r.code)| <= room
  {
    var ok, follow, mask := Head(s);
    if !ok {
      return Malformed;
    }
    if room < (if 2 < follow then 2 else 1) {
      return NoRoom;
    }
    var first := s[0] & !mask;
    var good, newch := Continue(s[1..], follow, first);
    assert forall k :: 1 <= k <= follow ==> s[k] == s[1..][k - 1];
    if !good {
      RejectedStartsNoChar(s, follow, mask);
      return Malformed;
    }
    AcceptedCode(s, follow, mask);
    CodePointFits(s[..follow + 1]);
    return Char(follow + 1, newch);
  }

  /** Stores one unit at the output pointer and advances it. */
  method Put<T>(out: array<T>, at: nat, x: T) returns (next: nat)
    requires at < out.Length
    modifies out
    ensures next == at + 1
    ensures out[..next] == old(out[..at]) + [x]
    ensures out[next..] == old(out[next..])
  {
    out[at] := x;
    next := at + 1;
  }

  /** minidownloader/encode.c:68-79. */
  method PutWords(out: array<Word>, at: nat, c: Scalar) returns (next: nat)
    requires at + |Utf16(c)| <= out.Length
    modifies out
    ensures next == at + |Utf16(c)|
    ensures out[..next] == old(out[..at]) + Utf16(c)
    ensures out[next..] == old(out[next..])
  {
    if c < 0x1_0000 {
      next := Put(out, at, c);
    } else {
      var high, low := High(c), Low(c);
      next := Put(out, at, high);
      assert out[next + 1..] == out[next..][1..];
      next := Put(out, next, low);
      assert old(out[..at]) + [high] + [low] == old(out[..at]) + [high, low];
    }
  }

  /** Some characters from the start of the input have become words. */
  ghost predicate Converted(input: seq<Byte>, text: seq<Scalar>, consumed: int, output: seq<Word>) {
    && Utf8s(text) <= input
    && consumed == |Utf8s(text)|
    && output == Utf16s(text)
  }

  lemma Extend(input: seq<Byte>, text: seq<Scalar>, consumed: int, output: seq<Word>, c: Scalar)
    requires Converted(input, text, consumed, output) && Utf8(c) <= input[consumed..]
    ensures Converted(input, text + [c], consumed + |Utf8(c)|, output + Utf16(c))
  {
    FlatAppend(Utf8, text, c);
    FlatAppend(Utf16, text, c);
  }

  /** The return codes 0 and -1; Overrun stands for a store past the end of the output,
      where the model stops. */
  datatype Code = Zero | Minus | Overrun

  /** The code given for what is left of the input and of the room. */
  ghost predicate Stops(rest: seq<Byte>, left: int, rc: Code) {
    if rest == [] || left == 0 || (left == 1 && FourOctets(rest)) then rc == Zero
    else rc == Minus && !StartsChar(rest)
  }

  datatype Result<U> = Result(text: seq<Scalar>, rc: Code, consumed: nat, output: seq<U>)

  /** What the decoder answers on an input and a room; text is what it understood. */
  ghost predicate Decodes(input: seq<Byte>, room: nat, r: Result<Word>) {
    && r.consumed <= |input| && |r.output| <= room
    && Converted(input, r.text, r.consumed, r.output)
    && Stops(input[r.consumed..], room - |r.output|, r.rc)
  }

  /** minidownloader/encode.c:12-81: one turn of the loop. */
  method DecodeNext(s: seq<Byte>, out: array<Word>, at: nat)
    returns (stop: bool, rc: Code, size: nat, next: nat, ghost c: Scalar)
    requires s != [] && at < out.Length
    modifies out
    ensures at <= next <= out.Length && out[next..] == old(out[next..])
    ensures stop ==> Stops(s, out.Length - at, rc) && next == at && out[..] == old(out[..])
    ensures !stop ==> Utf8(c) <= s && size == |Utf8(c)| && out[..next] == old(out[..at]) + Utf16(c)
  {
    stop, rc, size, next, c := false, Zero, 1, at, 0;
    var ch := s[0];
    if ch < 0x80 {
      next := Put(out, at, ch);
      c := ch;
    } else {
      var r := DecodeMulti(s, out.Length - at);
      if r.Char? {
        next := PutWords(out, at, r.code);
        size, c := r.size, r.code;
      } else {
        stop, rc := true, if r.Malformed? then Minus else Zero;
      }
    }
  }

  /** minidownloader/encode.c:2-84. */
  method Utf8ToUcs2(input: seq<Byte>, out: array<Word>)
    returns (rc: Code, consumed: nat, written: nat, ghost text: seq<Scalar>)
    modifies out
    ensures written <= out.Length
    ensures Decodes(input, out.Length, Result(text, rc, consumed, out[..written]))
    ensures out[written..] == old(out[written..])
  {
    consumed, written, text := 0, 0, [];
    while consumed < |input| && written < out.Length
      invariant consumed <= |input| && written <= out.Length
      invariant Converted(input, text, consumed, out[..written])
      invariant out[written..] == old(out[written..])
    {
      ghost var output, tail := out[..written], out[written..];
      var stop, code, size, next;
      ghost var c;
      stop, code, size, next, c := DecodeNext(input[consumed..], out, written);
      if stop {
        return code, consumed, written, text;
      }
      Extend(input, text, consumed, output, c);
      assert out[next..] == tail[next - written..] == old(out[next..]);
      consumed, written, text := consumed + size, next, text + [c];
    }
    return Zero, consumed, written, text;
  }

  // ------------------------------------------------------------ what it accepts

  /** No value of f begins another. */
  ghost predicate PrefixCode<A(!new), B>(f: A -> seq<B>) {
    && (forall c :: f(c) != [])
    && forall c, d :: f(c) <= f(d) ==> c == d
  }

  /** Of two texts written at the start of one string, the shorter begins the longer. */
  lemma {:induction false} FlatUnique<A(!new), B>(f: A -> seq<B>, t: seq<A>, u: seq<A>, s: seq<B>)
    requires PrefixCode(f)
    requires Flat(f, t) <= s && Flat(f, u) <= s && |t| <= |u|
    ensures t <= u
  {
    if t != [] {
      var c, d := t[0], u[0];
      assert f(c) <= s && f(d) <= s;
      assert f(c) <= f(d) || f(d) <= f(c);
      FlatUnique(f, t[1..], u[1..], s[|f(c)|..]);
    }
  }

  lemma {:induction false} FlatSplit<A, B>(f: A -> seq<B>, t: seq<A>, u: seq<A>)
    ensures Flat(f, t + u) == Flat(f, t) + Flat(f, u)
  {
    if t == [] {
      assert t + u == u;
    } else {
      FlatSplit(f, t[1..], u);
      assert (t + u)[1..] == t[1..] + u && (t + u)[0] == t[0];
      assert f(t[0]) + (Flat(f, t[1..]) + Flat(f, u)) == (f(t[0]) + Flat(f, t[1..])) + Flat(f, u);
    }
  }

  lemma Utf8IsPrefixCode()
    ensures PrefixCode(Utf8)
  {
    forall c, d | Utf8(c) <= Utf8(d)
      ensures c == d
    {
      Utf8Prefix(c, d, Utf8(d));
    }
  }

  lemma FourOctetsNeedTwoWords(c: Scalar, s: seq<Byte>)
    requires Utf8(c) <= s && FourOctets(s)
    ensures |Utf16(c)| == 2
  {
    CodePointOfUtf8(c);
    LeadOctet(Utf8(c));
    assert Utf8(c)[0] == s[0];
  }

  /** What a longer text goes on with. */
  lemma FlatNext<A, B>(f: A -> seq<B>, t: seq<A>, u: seq<A>, s: seq<B>)
    requires t < u && Flat(f, u) <= s
    ensures Flat(f, t) <= s && f(u[|t|]) <= s[|Flat(f, t)|..]
  {
    var v := u[|t|..];
    assert u == t + v;
    FlatSplit(f, t, v);
  }

  /** The decoder stops as late as it can: no text that fits goes further. */
  lemma DecodesMost(input: seq<Byte>, room: nat, r: Result<Word>, text: seq<Scalar>)
    requires Decodes(input, room, r)
    requires Utf8s(text) <= input && |Utf16s(text)| <= room
    ensures text <= r.text
  {
    Utf8IsPrefixCode();
    if |text| <= |r.text| {
      FlatUnique(Utf8, text, r.text, input);
    } else {
      FlatUnique(Utf8, r.text, text, input);
      NoFurther(input, room, r, text);
    }
  }

  lemma NoFurther(input: seq<Byte>, room: nat, r: Result<Word>, text: seq<Scalar>)
    requires Decodes(input, room, r)
    requires Utf8s(text) <= input && |Utf16s(text)| <= room
    ensures !(r.text < text)
  {
    if r.text < text {
      var c := text[|r.text|];
      FlatNext(Utf8, r.text, text, input);
      FlatNext(Utf16, r.text, text, Utf16s(text));
      if FourOctets(input[r.consumed..]) {
        FourOctetsNeedTwoWords(c, input[r.consumed..]);
      }
    }
  }

  lemma DecodesOnce(input: seq<Byte>, room: nat, r: Result<Word>, q: Result<Word>)
    requires Decodes(input, room, r) && Decodes(input, room, q)
    ensures r == q
  {
    DecodesMost(input, room, r, q.text);
    DecodesMost(input, room, q, r.text);
    assert r.text == q.text;
  }

  lemma {:induction false} WordsAtMostOctets(t: seq<Scalar>)
    ensures |Utf16s(t)| <= |Utf8s(t)|
  {
    if t != [] {
      WordsAtMostOctets(t[1..]);
    }
  }

  lemma PrependChar(s: seq<Byte>, n: int, u: seq<Scalar>) returns (t: seq<Scalar>)
    requires StartsUtf8Char(s, n) && s[n..] == Utf8s(u)
    ensures s == Utf8s(t)
  {
    Utf8OfCodePoint(s[..n]);
    var c := CodePoint(s[..n]);
    t := [c] + u;
    assert t[1..] == u;
    assert s == s[..n] + s[n..];
  }

  lemma {:induction false} OctetsAreText(s: seq<Byte>) returns (t: seq<Scalar>)
    requires Utf8Octets(s)
    ensures s == Utf8s(t)
    decreases |s|
  {
    if s == [] {
      t := [];
    } else {
      var n :| StartsUtf8Char(s, n) && Utf8Octets(s[n..]);
      var u := OctetsAreText(s[n..]);
      t := PrependChar(s, n, u);
    }
  }

  lemma {:induction false} TextIsOctets(t: seq<Scalar>)
    ensures Utf8Octets(Utf8s(t))
  {
    if t != [] {
      TextIsOctets(t[1..]);
      CodePointOfUtf8(t[0]);
      var s := Utf8s(t);
      var n := |Utf8(t[0])|;
      assert s[..n] == Utf8(t[0]) && s[n..] == Utf8s(t[1..]);
    }
  }

  /** Given room, the decoder succeeds on exactly the strings of section 4 of RFC 3629. */
  lemma AcceptsExactlyUtf8(input: seq<Byte>, room: nat, r: Result<Word>)
    requires Decodes(input, room, r) && |input| <= room
    ensures r.rc == Zero <==> Utf8Octets(input)
    ensures r.rc == Zero ==> r.consumed == |input|
  {
    WordsAtMostOctets(r.text);
    if r.rc == Zero {
      assert input == Utf8s(r.text);
      TextIsOctets(r.text);
    }
    if Utf8Octets(input) {
      var t := OctetsAreText(input);
      WordsAtMostOctets(t);
      DecodesMost(input, room, r, t);
      var u := r.text[|t|..];
      assert r.text == t + u;
      FlatSplit(Utf8, t, u);
    }
  }

  // ---------------------------------------------------------------- the encoder

  predicate IsLow(w: Word) { w & 0xFC00 == 0xDC00 }

  predicate IsHigh(w: Word) { w & 0xFC00 == 0xD800 }

  lemma SurrogateRanges(w: Word)
    ensures IsLow(w) <==> 0xDC00 <= w < 0xE000
    ensures IsHigh(w) <==> 0xD800 <= w < 0xDC00
  {
  }

  ghost predicate StartsWords(s: seq<Word>) {
    exists c: Scalar :: Utf16(c) <= s
  }

  lemma PairIsUtf16(w0: Word, w1: Word)
    requires IsHigh(w0) && IsLow(w1)
    ensures 0x1_0000 <= Unpair(w0, w1) < 0x11_0000 && Utf16(Unpair(w0, w1)) == [w0, w1]
  {
    SurrogateRanges(w0);
    SurrogateRanges(w1);
    UnpairRange(w0, w1);
    HighUnpair(w0, w1);
  }

  lemma WordsAreWhole(c: Scalar)
    ensures !IsLow(Utf16(c)[0])
    ensures IsHigh(Utf16(c)[0]) ==> |Utf16(c)| == 2 && IsLow(Utf16(c)[1])
  {
    SurrogateRanges(Utf16(c)[0]);
    if 0x1_0000 <= c {
      PairOf(c);
      SurrogateRanges(Utf16(c)[1]);
    }
  }

  predicate Lone(s: seq<Word>)
    requires s != []
  {
    IsLow(s[0]) || (IsHigh(s[0]) && (|s| < 2 || !IsLow(s[1])))
  }

  lemma LoneStartsNoWords(s: seq<Word>)
    requires s != [] && Lone(s)
    ensures !StartsWords(s)
  {
    forall c: Scalar
      ensures !(Utf16(c) <= s)
    {
      WordsAreWhole(c);
    }
  }

  /** minidownloader/encode.c:107-123: the next code point. */
  method NextCode(s: seq<Word>) returns (ok: bool, c: Scalar)
    requires s != [] && 0x80 <= s[0]
    ensures ok ==> Utf16(c) <= s && 0x80 <= c
    ensures !ok ==> !StartsWords(s)
  {
    var ch := s[0];
    SurrogateRanges(ch);
    if IsLow(ch) || (IsHigh(ch) && (|s| < 2 || !IsLow(s[1]))) {
      LoneStartsNoWords(s);
      return false, 0;
    }
    if IsHigh(ch) {
      PairIsUtf16(ch, s[1]);
      return true, Unpair(ch, s[1]);
    }
    return true, ch;
  }

  predicate Halved(c: bv32, rest: bv32, need: nat) {
    || (need == 1 && rest == c >> 11)
    || (need == 2 && rest == c >> 16 && 0x800 <= c)
    || (need == 3 && rest == c >> 21 && 0x1_0000 <= c)
  }

  /** minidownloader/encode.c:125-128: how many octets follow the first. */
  method Following(c: Scalar) returns (need: nat)
    requires 0x80 <= c
    ensures need + 1 == |Utf8(c)|
    ensures |Utf16(c)| == if 2 < need then 2 else 1
  {
    var rest: bv32 := c >> 11;
    need := 1;
    while rest != 0
      invariant Halved(c, rest, need)
      decreases 3 - need
    {
      HalvedOnce(c, rest, need);
      rest := rest >> 5;
      need := need + 1;
    }
    HalvedOut(c, need);
  }

  lemma HalvedOnce(c: Scalar, rest: bv32, need: nat)
    requires Halved(c, rest, need) && rest != 0
    ensures need < 3 && Halved(c, rest >> 5, need + 1)
  {
  }

  lemma HalvedOut(c: Scalar, need: nat)
    requires 0x80 <= c && Halved(c, 0, need)
    ensures need + 1 == |Utf8(c)|
    ensures |Utf16(c)| == if 2 < need then 2 else 1
  {
  }

  /** The loop state of minidownloader/encode.c:137-141 after n turns. */
  predicate Turned(c: bv32, n: nat, rest: bv32, mark: bv32) {
    || (n == 0 && rest == c && mark == 0x80)
    || (n == 1 && rest == c >> 6 && mark == 0xC0)
    || (n == 2 && rest == c >> 12 && mark == 0xE0)
    || (n == 3 && rest == c >> 18 && mark == 0xF0)
  }

  lemma TurnedOnce(c: bv32, n: nat, rest: bv32, mark: bv32)
    requires Turned(c, n, rest, mark) && n < 3
    ensures Turned(c, n + 1, rest >> 6, mark | (mark >> 1))
  {
  }

  lemma FirstOctet(c: Scalar, need: nat, rest: bv32, mark: bv32)
    requires need + 1 == |Utf8(c)| && 1 <= need && Turned(c, need, rest, mark)
    ensures mark | rest == Utf8(c)[0]
  {
  }

  function Tail(c: bv32, n: nat): Byte {
    if n == 0 then Tail0(c) else if n == 1 then Tail6(c) else Tail12(c)
  }

  lemma TurnedTail(c: bv32, n: nat, rest: bv32, mark: bv32)
    requires Turned(c, n, rest, mark) && n < 3
    ensures 0x80 | (rest & 0x3F) == Tail(c, n)
  {
  }

  lemma OtherOctet(c: Scalar, need: nat, n: nat)
    requires need + 1 == |Utf8(c)| && n < need
    ensures Utf8(c)[need - n] == Tail(c, n)
  {
  }

  /** The last n units of unit stand at their place in now, and the rest of was around
      their place is as it was. */
  predicate Tailed<T(==)>(was: seq<T>, now: seq<T>, at: nat, unit: seq<T>, n: nat) {
    && at + |unit| <= |was| == |now|
    && n <= |unit|
    && now[..at] == was[..at]
    && now[at + |unit|..] == was[at + |unit|..]
    && now[at + |unit| - n..at + |unit|] == unit[|unit| - n..]
  }

  lemma TailedOnce<T>(was: seq<T>, now: seq<T>, at: nat, unit: seq<T>, n: nat)
    requires Tailed(was, now, at, unit, n) && n < |unit|
    ensures Tailed(was, now[at + |unit| - n - 1 := unit[|unit| - n - 1]], at, unit, n + 1)
  {
    var k := |unit| - n - 1;
    var next := now[at + k := unit[k]];
    assert next[at + k..at + |unit|] == [unit[k]] + now[at + k + 1..at + |unit|];
    assert unit[k..] == [unit[k]] + unit[k + 1..];
  }

  /** The body of the loop of minidownloader/encode.c:137-141, without the store. */
  method OneTurn(ghost c: Scalar, ghost n: nat, rest: bv32, mark: bv32)
    returns (octet: Byte, rest': bv32, mark': bv32)
    requires Turned(c, n, rest, mark) && n + 1 < |Utf8(c)|
    ensures octet == Utf8(c)[|Utf8(c)| - n - 1]
    ensures Turned(c, n + 1, rest', mark')
  {
    OtherOctet(c, |Utf8(c)| - 1, n);
    TurnedTail(c, n, rest, mark);
    TurnedOnce(c, n, rest, mark);
    octet, rest', mark' := 0x80 | (rest & 0x3F), rest >> 6, mark | (mark >> 1);
  }

  method LastTurn(ghost c: Scalar, ghost n: nat, rest: bv32, mark: bv32) returns (octet: Byte)
    requires 1 <= n && n + 1 == |Utf8(c)| && Turned(c, n, rest, mark)
    ensures octet == Utf8(c)[0]
  {
    FirstOctet(c, n, rest, mark);
    octet := mark | rest;
  }

  /** minidownloader/encode.c:134-142: the octets are stored from the last to the first. */
  method PutOctets(out: array<Byte>, at: nat, c: Scalar, need: nat)
    requires 1 <= need && need + 1 == |Utf8(c)| && at + need + 1 <= out.Length
    modifies out
    ensures Tailed(old(out[..]), out[..], at, Utf8(c), need + 1)
  {
    var mark: bv32, rest: bv32, n := 0x80, c, 0;
    ghost var was, octets := out[..], Utf8(c);
    while n < need
      invariant n <= need
      invariant Turned(c, n, rest, mark)
      invariant Tailed(was, out[..], at, octets, n)
    {
      TailedOnce(was, out[..], at, octets, n);
      var octet;
      octet, rest, mark := OneTurn(c, n, rest, mark);
      Store(out, at + need - n, octet);
      n := n + 1;
    }
    TailedOnce(was, out[..], at, octets, n);
    var octet := LastTurn(c, n, rest, mark);
    Store(out, at, octet);
  }

  method Store<T>(out: array<T>, at: nat, x: T)
    requires at < out.Length
    modifies out
    ensures out[..] == old(out[..])[at := x]
  {
    out[at] := x;
  }

  ghost predicate Encoded(input: seq<Word>, text: seq<Scalar>, consumed: int, output: seq<Byte>) {
    && Utf16s(text) <= input
    && consumed == |Utf16s(text)|
    && output == Utf8s(text)
  }

  lemma ExtendWords(input: seq<Word>, text: seq<Scalar>, consumed: int, output: seq<Byte>, c: Scalar)
    requires Encoded(input, text, consumed, output) && Utf16(c) <= input[consumed..]
    ensures Encoded(input, text + [c], consumed + |Utf16(c)|, output + Utf8(c))
  {
    FlatAppend(Utf8, text, c);
    FlatAppend(Utf16, text, c);
  }

  ghost predicate NextDoesNotFit(rest: seq<Word>, left: int) {
    exists c: Scalar :: Utf16(c) <= rest && left < |Utf8(c)|
  }

  ghost predicate Ends(rest: seq<Word>, left: int, rc: Code) {
    if rest == [] then rc == Zero
    else if rest[0] < 0x80 then rc == Overrun && left == 0
    else if StartsWords(rest) then rc == Zero && NextDoesNotFit(rest, left)
    else rc == Minus
  }

  /** What the encoder answers on an input and a room; text is what it understood. */
  ghost predicate Encodes(input: seq<Word>, room: nat, r: Result<Byte>) {
    && r.consumed <= |input| && |r.output| <= room
    && Encoded(input, r.text, r.consumed, r.output)
    && Ends(input[r.consumed..], room - |r.output|, r.rc)
  }

  lemma TailedAll<T>(was: seq<T>, now: seq<T>, at: nat, unit: seq<T>)
    requires Tailed(was, now, at, unit, |unit|)
    ensures now[..at + |unit|] == was[..at] + unit
    ensures now[at + |unit|..] == was[at + |unit|..]
  {
    assert now[..at + |unit|] == now[..at] + now[at..at + |unit|];
  }

  /** minidownloader/encode.c:131-142. */
  method PutChar(out: array<Byte>, at: nat, c: Scalar, need: nat) returns (next: nat)
    requires 1 <= need && need + 1 == |Utf8(c)| && at + need + 1 <= out.Length
    modifies out
    ensures next == at + need + 1
    ensures out[..next] == old(out[..at]) + Utf8(c)
    ensures out[next..] == old(out[next..])
  {
    PutOctets(out, at, c, need);
    TailedAll(old(out[..]), out[..], at, Utf8(c));
    next := at + need + 1;
    assert old(out[..])[..at] == old(out[..at]);
    assert old(out[..])[next..] == old(out[next..]);
  }

  /** minidownloader/encode.c:107-142: one character that is not ASCII. */
  method EncodeMulti(s: seq<Word>, out: array<Byte>, at: nat) returns (r: Step, next: nat)
    requires s != [] && 0x80 <= s[0] && at <= out.Length
    modifies out
    ensures at <= next <= out.Length && out[next..] == old(out[next..])
    ensures r.Malformed? ==> !StartsWords(s) && next == at && out[..] == old(out[..])
    ensures r.NoRoom? ==> NextDoesNotFit(s, out.Length - at) && next == at && out[..] == old(out[..])
    ensures r.Char? ==> Utf16(r.code) <= s && |Utf16(r.code)| == r.size
    ensures r.Char? ==> out[..next] == old(out[..at]) + Utf8(r.code)
  {
    var ok, c := NextCode(s);
    if !ok {
      return Malformed, at;
    }
    var need := Following(c);
    if out.Length - at <= need {
      return NoRoom, at;
    }
    next := PutChar(out, at, c, need);
    return Char(if 2 < need then 2 else 1, c), next;
  }

  /** minidownloader/encode.c:98-143: one turn of the loop. */
  method EncodeNext(s: seq<Word>, out: array<Byte>, at: nat)
    returns (stop: bool, rc: Code, size: nat, next: nat, ghost c: Scalar)
    requires s != [] && at <= out.Length
    modifies out
    ensures at <= next <= out.Length && out[next..] == old(out[next..])
    ensures stop ==> Ends(s, out.Length - at, rc) && next == at && out[..] == old(out[..])
    ensures !stop ==> Utf16(c) <= s && size == |Utf16(c)| && out[..next] == old(out[..at]) + Utf8(c)
  {
    stop, rc, size, next, c := false, Zero, 1, at, 0;
    var ch := s[0];
    if ch < 0x80 {
      if at == out.Length {
        stop, rc := true, Overrun;
      } else {
        next := Put(out, at, ch);
        c := ch;
      }
    } else {
      var r;
      r, next := EncodeMulti(s, out, at);
      if r.Char? {
        size, c := r.size, r.code;
      } else {
        stop, rc := true, if r.Malformed? then Minus else Zero;
      }
    }
  }

  /** minidownloader/encode.c:86-146. */
  method Ucs2ToUtf8(input: seq<Word>, out: array<Byte>)
    returns (rc: Code, consumed: nat, written: nat, ghost text: seq<Scalar>)
    modifies out
    ensures written <= out.Length
    ensures Encodes(input, out.Length, Result(text, rc, consumed, out[..written]))
    ensures out[written..] == old(out[written..])
  {
    consumed, written, text := 0, 0, [];
    while consumed < |input|
      invariant consumed <= |input| && written <= out.Length
      invariant Encoded(input, text, consumed, out[..written])
      invariant out[written..] == old(out[written..])
    {
      ghost var output, tail := out[..written], out[written..];
      var stop, code, size, next;
      ghost var c;
      stop, code, size, next, c := EncodeNext(input[consumed..], out, written);
      if stop {
        return code, consumed, written, text;
      }
      ExtendWords(input, text, consumed, output, c);
      assert out[next..] == tail[next - written..] == old(out[next..]);
      consumed, written, text := consumed + size, next, text + [c];
    }
    return Zero, consumed, written, text;
  }

  lemma UnitsOf(c: Scalar, s: seq<Word>)
    requires Utf16(c) <= s
    ensures c < 0x80 <==> s[0] < 0x80
    ensures c < 0x80 ==> |Utf8(c)| == 1
  {
    if 0x1_0000 <= c {
      PairOf(c);
    }
  }

  lemma Utf16IsPrefixCode()
    ensures PrefixCode(Utf16)
  {
    forall c, d | Utf16(c) <= Utf16(d)
      ensures c == d
    {
      WordsAreWhole(c);
      WordsAreWhole(d);
      Utf16Prefix(c, d);
    }
  }

  lemma Utf16Prefix(c: Scalar, d: Scalar)
    requires Utf16(c) <= Utf16(d)
    ensures c == d
  {
    assert Utf16(c)[0] == Utf16(d)[0];
    WordsAreWhole(c);
    WordsAreWhole(d);
    if 0x1_0000 <= c {
      SurrogateRanges(Utf16(c)[0]);
      PairOf(c);
      UnpairOf(c);
    }
    if 0x1_0000 <= d {
      SurrogateRanges(Utf16(d)[0]);
      PairOf(d);
      UnpairOf(d);
    }
    assert |Utf16(c)| == |Utf16(d)|;
    assert Utf16(c) == Utf16(d);
  }

  lemma DoesNotFit(rest: seq<Word>, left: int, c: Scalar)
    requires Utf16(c) <= rest
    ensures NextDoesNotFit(rest, left) <==> left < |Utf8(c)|
  {
    if NextDoesNotFit(rest, left) {
      var d: Scalar :| Utf16(d) <= rest && left < |Utf8(d)|;
      Utf16IsPrefixCode();
      assert Utf16(c) <= Utf16(d) || Utf16(d) <= Utf16(c);
    }
  }

  lemma EncodesNoFurther(input: seq<Word>, room: nat, r: Result<Byte>, text: seq<Scalar>)
    requires Encodes(input, room, r)
    requires Utf16s(text) <= input && |Utf8s(text)| <= room
    ensures !(r.text < text)
  {
    if r.text < text {
      var c := text[|r.text|];
      FlatNext(Utf16, r.text, text, input);
      FlatNext(Utf8, r.text, text, Utf8s(text));
      var rest, left := input[r.consumed..], room - |r.output|;
      UnitsOf(c, rest);
      assert StartsWords(rest);
      DoesNotFit(rest, left, c);
    }
  }

  /** The encoder stops as late as it can: no text that fits goes further. */
  lemma EncodesMost(input: seq<Word>, room: nat, r: Result<Byte>, text: seq<Scalar>)
    requires Encodes(input, room, r)
    requires Utf16s(text) <= input && |Utf8s(text)| <= room
    ensures text <= r.text
  {
    Utf16IsPrefixCode();
    if |text| <= |r.text| {
      FlatUnique(Utf16, text, r.text, input);
    } else {
      FlatUnique(Utf16, r.text, text, input);
      EncodesNoFurther(input, room, r, text);
    }
  }

  lemma EncodesOnce(input: seq<Word>, room: nat, r: Result<Byte>, q: Result<Byte>)
    requires Encodes(input, room, r) && Encodes(input, room, q)
    ensures r == q
  {
    EncodesMost(input, room, r, q.text);
    EncodesMost(input, room, q, r.text);
    assert r.text == q.text;
  }

  /** The only store past the output is that of an ASCII character that finds it full. */
  lemma OverrunExactly(input: seq<Word>, room: nat, r: Result<Byte>)
    requires Encodes(input, room, r)
    ensures r.rc == Overrun <==>
      exists text :: AsciiMeetsEnd(input, room, text)
  {
    if r.rc == Overrun {
      assert AsciiMeetsEnd(input, room, r.text);
    }
    if text :| AsciiMeetsEnd(input, room, text) {
      var q := Result(text, Overrun, |Utf16s(text)|, Utf8s(text));
      EncodesOnce(input, room, r, q);
    }
  }

  /** The least such input: one letter, and no room. */
  lemma OneLetterOverruns(r: Result<Byte>)
    requires Encodes([0x61], 0, r)
    ensures r.rc == Overrun
  {
    assert AsciiMeetsEnd([0x61], 0, []);
    OverrunExactly([0x61], 0, r);
  }

  ghost predicate AsciiMeetsEnd(input: seq<Word>, room: nat, text: seq<Scalar>) {
    && Utf16s(text) < input
    && |Utf8s(text)| == room
    && input[|Utf16s(text)|] < 0x80
  }

  lemma {:induction false} OctetsAtMostThreePerWord(t: seq<Scalar>)
    ensures |Utf8s(t)| <= 3 * |Utf16s(t)|
  {
    if t != [] {
      OctetsAtMostThreePerWord(t[1..]);
    }
  }

  ghost predicate WellFormedWords(s: seq<Word>) {
    exists t :: s == Utf16s(t)
  }

  /** With three octets of room per word, the encoder succeeds on exactly the strings of
      whole surrogate pairs. */
  lemma AcceptsExactlyUtf16(input: seq<Word>, room: nat, r: Result<Byte>)
    requires Encodes(input, room, r) && 3 * |input| <= room
    ensures r.rc == Zero <==> WellFormedWords(input)
    ensures r.rc == Zero ==> r.consumed == |input|
    ensures r.rc != Overrun
  {
    OctetsAtMostThreePerWord(r.text);
    var rest, left := input[r.consumed..], room - |r.output|;
    assert 3 * |rest| <= left;
    assert !NextDoesNotFit(rest, left) || rest == [];
    if t :| input == Utf16s(t) {
      OctetsAtMostThreePerWord(t);
      var q := Result(t, Zero, |input|, Utf8s(t));
      EncodesOnce(input, room, r, q);
    }
  }

  /** What the encoder makes of a whole input, the decoder turns back into it. */
  lemma DecodeUndoesEncode(words: seq<Word>, room8: nat, e: Result<Byte>, room16: nat, d: Result<Word>)
    requires Encodes(words, room8, e) && e.rc == Zero && e.consumed == |words|
    requires Decodes(e.output, room16, d) && |words| <= room16
    ensures d.rc == Zero && d.consumed == |e.output| && d.output == words
  {
    DecodesOnce(e.output, room16, d, Result(e.text, Zero, |e.output|, words));
  }

  /** What the decoder makes of a whole input, the encoder turns back into it. */
  lemma EncodeUndoesDecode(bytes: seq<Byte>, room16: nat, d: Result<Word>, room8: nat, e: Result<Byte>)
    requires Decodes(bytes, room16, d) && d.rc == Zero && d.consumed == |bytes|
    requires Encodes(d.output, room8, e) && |bytes| <= room8
    ensures e.rc == Zero && e.consumed == |d.output| && e.output == bytes
  {
    EncodesOnce(d.output, room8, e, Result(d.text, Zero, |d.output|, bytes));
  }
}

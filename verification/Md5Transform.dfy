/** The compression of one block (minidownloader/md5.c:164-262), proved against the
    description of section 3.4 of RFC 1321.

    Words are of any type with the operations of an Alu, so that the long chain of steps is
    never a matter of single bits; Bits is the Alu of 32-bit words. */
module Md5Transform {
  import Md5

  /** What is done to words: f1 to f4 are the functions of the code, aux those of the standard
      for steps 0 to 63. */
  datatype Alu<!W> = Alu(
    word: nat -> W,
    add: (W, W) -> W,
    rotated: (W, nat) -> W,
    f1: (W, W, W) -> W,
    f2: (W, W, W) -> W,
    f3: (W, W, W) -> W,
    f4: (W, W, W) -> W,
    aux: (nat, W, W, W) -> W)

  // ------------------------------------------------------- section 3.4 of the standard

  /** The registers A, B, C and D. */
  datatype Regs<W> = Regs(a: W, b: W, c: W, d: W)

  /** Which word of the block step i reads. */
  function Index(i: nat): (k: nat)
    ensures k < 16
  {
    if i < 16 then i % 16
    else if i < 32 then (5 * i + 1) % 16
    else if i < 48 then (3 * i + 5) % 16
    else 7 * i % 16
  }

  /** How far step i rotates. */
  function Shift(i: nat): (s: nat)
    ensures 0 < s < 32
  {
    if i < 16 then (match i % 4 case 0 => 7 case 1 => 12 case 2 => 17 case _ => 22)
    else if i < 32 then (match i % 4 case 0 => 5 case 1 => 9 case 2 => 14 case _ => 20)
    else if i < 48 then (match i % 4 case 0 => 4 case 1 => 11 case 2 => 16 case _ => 23)
    else (match i % 4 case 0 => 6 case 1 => 10 case 2 => 15 case _ => 21)
  }

  /** The table T: the whole part of 2^32 times the sine of i + 1 radians, without its sign. */
  function Sine(i: nat): nat {
    match i
    case 0 => 0xd76aa478
    case 1 => 0xe8c7b756
    case 2 => 0x242070db
    case 3 => 0xc1bdceee
    case 4 => 0xf57c0faf
    case 5 => 0x4787c62a
    case 6 => 0xa8304613
    case 7 => 0xfd469501
    case 8 => 0x698098d8
    case 9 => 0x8b44f7af
    case 10 => 0xffff5bb1
    case 11 => 0x895cd7be
    case 12 => 0x6b901122
    case 13 => 0xfd987193
    case 14 => 0xa679438e
    case 15 => 0x49b40821
    case 16 => 0xf61e2562
    case 17 => 0xc040b340
    case 18 => 0x265e5a51
    case 19 => 0xe9b6c7aa
    case 20 => 0xd62f105d
    case 21 => 0x02441453
    case 22 => 0xd8a1e681
    case 23 => 0xe7d3fbc8
    case 24 => 0x21e1cde6
    case 25 => 0xc33707d6
    case 26 => 0xf4d50d87
    case 27 => 0x455a14ed
    case 28 => 0xa9e3e905
    case 29 => 0xfcefa3f8
    case 30 => 0x676f02d9
    case 31 => 0x8d2a4c8a
    case 32 => 0xfffa3942
    case 33 => 0x8771f681
    case 34 => 0x6d9d6122
    case 35 => 0xfde5380c
    case 36 => 0xa4beea44
    case 37 => 0x4bdecfa9
    case 38 => 0xf6bb4b60
    case 39 => 0xbebfbc70
    case 40 => 0x289b7ec6
    case 41 => 0xeaa127fa
    case 42 => 0xd4ef3085
    case 43 => 0x04881d05
    case 44 => 0xd9d4d039
    case 45 => 0xe6db99e5
    case 46 => 0x1fa27cf8
    case 47 => 0xc4ac5665
    case 48 => 0xf4292244
    case 49 => 0x432aff97
    case 50 => 0xab9423a7
    case 51 => 0xfc93a039
    case 52 => 0x655b59c3
    case 53 => 0x8f0ccc92
    case 54 => 0xffeff47d
    case 55 => 0x85845dd1
    case 56 => 0x6fa87e4f
    case 57 => 0xfe2ce6e0
    case 58 => 0xa3014314
    case 59 => 0x4e0811a1
    case 60 => 0xf7537e82
    case 61 => 0xbd3af235
    case 62 => 0x2ad7d2bb
    case _ => 0xeb86d391
  }

  /** Step i: A becomes B + ((A + aux(B, C, D) + word + sine) rotated), and the registers
      change places. */
  function Turn<W>(m: Alu<W>, x: seq<W>, r: Regs<W>, i: nat): Regs<W>
    requires |x| == 16
  {
    var sum := m.add(m.add(m.add(r.a, m.aux(i, r.b, r.c, r.d)), x[Index(i)]), m.word(Sine(i)));
    Regs(r.d, m.add(r.b, m.rotated(sum, Shift(i))), r.b, r.c)
  }

  function Turns<W>(m: Alu<W>, x: seq<W>, r: Regs<W>, n: nat): Regs<W>
    requires |x| == 16
  {
    if n == 0 then r else Turn(m, x, Turns(m, x, r, n - 1), n - 1)
  }

  function Compressed<W>(m: Alu<W>, x: seq<W>, r: Regs<W>): Regs<W>
    requires |x| == 16
  {
    var t := Turns(m, x, r, 64);
    Regs(m.add(r.a, t.a), m.add(r.b, t.b), m.add(r.c, t.c), m.add(r.d, t.d))
  }

  // ------------------------------------------------------------------- 32-bit words

  type Word = Md5.Word

  function Low(n: nat): Word { n % Md5.WORD }

  function Sum(a: Word, b: Word): Word { (a + b) % Md5.WORD }

  function Rotated(w: Word, s: nat): Word {
    if 0 < s < 32 then (((w as bv32) << s) | ((w as bv32) >> (32 - s))) as int else w
  }

  /** F, G, H and I, one for each round of 16 steps. */
  function AuxBits(i: nat, x: bv32, y: bv32, z: bv32): bv32 {
    if i < 16 then (x & y) | (!x & z)
    else if i < 32 then (x & z) | (y & !z)
    else if i < 48 then x ^ y ^ z
    else y ^ (x | !z)
  }

  function Aux(i: nat, x: Word, y: Word, z: Word): Word {
    AuxBits(i, x as bv32, y as bv32, z as bv32) as int
  }

  /** minidownloader/md5.c:167-170; the first is F with one operation less. */
  function F1Bits(x: bv32, y: bv32, z: bv32): bv32 { z ^ (x & (y ^ z)) }

  function F1(x: Word, y: Word, z: Word): Word { F1Bits(x as bv32, y as bv32, z as bv32) as int }

  function F2(x: Word, y: Word, z: Word): Word { F1(z, x, y) }

  function F3(x: Word, y: Word, z: Word): Word { ((x as bv32) ^ (y as bv32) ^ (z as bv32)) as int }

  function F4(x: Word, y: Word, z: Word): Word { ((y as bv32) ^ ((x as bv32) | !(z as bv32))) as int }

  /** The operations of minidownloader/md5.c:167-174, and those of the standard. */
  function Bits(): Alu<Word> {
    Alu(Low, Sum, Rotated, F1, F2, F3, F4, Aux)
  }

  // --------------------------------------------------------------- the steps of the code

  function Code<W>(m: Alu<W>, i: nat, x: W, y: W, z: W): W {
    if i < 16 then m.f1(x, y, z)
    else if i < 32 then m.f2(x, y, z)
    else if i < 48 then m.f3(x, y, z)
    else m.f4(x, y, z)
  }

  /** Additions may be reordered, and the functions of the code are those of the standard. */
  ghost predicate Laws<W(!new)>(m: Alu<W>) {
    Associates(m) && Commutes(m) && SameFunctions(m)
  }

  ghost predicate Associates<W(!new)>(m: Alu<W>) {
    forall a, b, c :: m.add(a, m.add(b, c)) == m.add(m.add(a, b), c)
  }

  ghost predicate Commutes<W(!new)>(m: Alu<W>) { forall a, b :: m.add(a, b) == m.add(b, a) }

  ghost predicate SameFunctions<W(!new)>(m: Alu<W>) {
    forall i, x, y, z :: m.aux(i, x, y, z) == Code(m, i, x, y, z)
  }

  /** MD5STEP, minidownloader/md5.c:173-174. */
  function Step<W>(m: Alu<W>, f: W, w: W, x: W, data: W, s: nat): W {
    m.add(m.rotated(m.add(w, m.add(f, data)), s), x)
  }

  /** Step i of the code, on the four registers that it names. */
  function StepAt<W>(m: Alu<W>, x: seq<W>, i: nat, w: W, p: W, q: W, s: W): W
    requires |x| == 16
  {
    Step(m, Code(m, i, p, q, s), w, p, m.add(x[Index(i)], m.word(Sine(i))), Shift(i))
  }

  /** The step, with the registers in the places where the standard has them. */
  function CodeTurn<W>(m: Alu<W>, x: seq<W>, r: Regs<W>, i: nat): Regs<W>
    requires |x| == 16
  {
    Regs(r.d, StepAt(m, x, i, r.a, r.b, r.c, r.d), r.b, r.c)
  }

  function CodeTurns<W>(m: Alu<W>, x: seq<W>, r: Regs<W>, n: nat): Regs<W>
    requires |x| == 16
  {
    if n == 0 then r else CodeTurn(m, x, CodeTurns(m, x, r, n - 1), n - 1)
  }

  function CodeCompressed<W>(m: Alu<W>, x: seq<W>, r: Regs<W>): Regs<W>
    requires |x| == 16
  {
    var t := CodeTurns(m, x, r, 64);
    Regs(m.add(r.a, t.a), m.add(r.b, t.b), m.add(r.c, t.c), m.add(r.d, t.d))
  }

  lemma StepIsTurn<W(!new)>(m: Alu<W>, x: seq<W>, i: nat, w: W, p: W, q: W, s: W)
    requires Laws(m) && |x| == 16
    ensures Turn(m, x, Regs(w, p, q, s), i) == CodeTurn(m, x, Regs(w, p, q, s), i)
  {
  }

  lemma {:induction false} CodeIsStandard<W(!new)>(m: Alu<W>, x: seq<W>, r: Regs<W>, n: nat)
    requires Laws(m) && |x| == 16
    ensures CodeTurns(m, x, r, n) == Turns(m, x, r, n)
  {
    if n != 0 {
      CodeIsStandard(m, x, r, n - 1);
      var t := Turns(m, x, r, n - 1);
      StepIsTurn(m, x, n - 1, t.a, t.b, t.c, t.d);
    }
  }

  /** Four steps of the code, each on the registers of the last one place further. */
  lemma Quad<W>(m: Alu<W>, x: seq<W>, start: Regs<W>, i: nat, a: W, b: W, c: W, d: W)
    requires |x| == 16 && CodeTurns(m, x, start, i) == Regs(a, b, c, d)
    ensures var a1 := StepAt(m, x, i, a, b, c, d);
      var d1 := StepAt(m, x, i + 1, d, a1, b, c);
      var c1 := StepAt(m, x, i + 2, c, d1, a1, b);
      var b1 := StepAt(m, x, i + 3, b, c1, d1, a1);
      CodeTurns(m, x, start, i + 4) == Regs(a1, b1, c1, d1)
  {
    var a1 := StepAt(m, x, i, a, b, c, d);
    assert CodeTurns(m, x, start, i + 1) == Regs(d, a1, b, c);
    var d1 := StepAt(m, x, i + 1, d, a1, b, c);
    assert CodeTurns(m, x, start, i + 2) == Regs(c, d1, a1, b);
    var c1 := StepAt(m, x, i + 2, c, d1, a1, b);
    assert CodeTurns(m, x, start, i + 3) == Regs(b, c1, d1, a1);
  }

  /** minidownloader/md5.c:191-198. */
  method Steps0<W>(m: Alu<W>, x: array<W>, a0: W, b0: W, c0: W, d0: W, ghost start: Regs<W>)
    returns (a: W, b: W, c: W, d: W)
    requires x.Length == 16 && CodeTurns(m, x[..], start, 0) == Regs(a0, b0, c0, d0)
    ensures CodeTurns(m, x[..], start, 8) == Regs(a, b, c, d)
  {
    a, b, c, d := a0, b0, c0, d0;
    Quad(m, x[..], start, 0, a, b, c, d);
    a := Step(m, m.f1(b, c, d), a, b, m.add(x[0], m.word(0xd76aa478)), 7);
    d := Step(m, m.f1(a, b, c), d, a, m.add(x[1], m.word(0xe8c7b756)), 12);
    c := Step(m, m.f1(d, a, b), c, d, m.add(x[2], m.word(0x242070db)), 17);
    b := Step(m, m.f1(c, d, a), b, c, m.add(x[3], m.word(0xc1bdceee)), 22);
    Quad(m, x[..], start, 4, a, b, c, d);
    a := Step(m, m.f1(b, c, d), a, b, m.add(x[4], m.word(0xf57c0faf)), 7);
    d := Step(m, m.f1(a, b, c), d, a, m.add(x[5], m.word(0x4787c62a)), 12);
    c := Step(m, m.f1(d, a, b), c, d, m.add(x[6], m.word(0xa8304613)), 17);
    b := Step(m, m.f1(c, d, a), b, c, m.add(x[7], m.word(0xfd469501)), 22);
  }

  /** minidownloader/md5.c:199-206. */
  method Steps8<W>(m: Alu<W>, x: array<W>, a0: W, b0: W, c0: W, d0: W, ghost start: Regs<W>)
    returns (a: W, b: W, c: W, d: W)
    requires x.Length == 16 && CodeTurns(m, x[..], start, 8) == Regs(a0, b0, c0, d0)
    ensures CodeTurns(m, x[..], start, 16) == Regs(a, b, c, d)
  {
    a, b, c, d := a0, b0, c0, d0;
    Quad(m, x[..], start, 8, a, b, c, d);
    a := Step(m, m.f1(b, c, d), a, b, m.add(x[8], m.word(0x698098d8)), 7);
    d := Step(m, m.f1(a, b, c), d, a, m.add(x[9], m.word(0x8b44f7af)), 12);
    c := Step(m, m.f1(d, a, b), c, d, m.add(x[10], m.word(0xffff5bb1)), 17);
    b := Step(m, m.f1(c, d, a), b, c, m.add(x[11], m.word(0x895cd7be)), 22);
    Quad(m, x[..], start, 12, a, b, c, d);
    a := Step(m, m.f1(b, c, d), a, b, m.add(x[12], m.word(0x6b901122)), 7);
    d := Step(m, m.f1(a, b, c), d, a, m.add(x[13], m.word(0xfd987193)), 12);
    c := Step(m, m.f1(d, a, b), c, d, m.add(x[14], m.word(0xa679438e)), 17);
    b := Step(m, m.f1(c, d, a), b, c, m.add(x[15], m.word(0x49b40821)), 22);
  }

  /** minidownloader/md5.c:208-215. */
  method Steps16<W>(m: Alu<W>, x: array<W>, a0: W, b0: W, c0: W, d0: W, ghost start: Regs<W>)
    returns (a: W, b: W, c: W, d: W)
    requires x.Length == 16 && CodeTurns(m, x[..], start, 16) == Regs(a0, b0, c0, d0)
    ensures CodeTurns(m, x[..], start, 24) == Regs(a, b, c, d)
  {
    a, b, c, d := a0, b0, c0, d0;
    Quad(m, x[..], start, 16, a, b, c, d);
    a := Step(m, m.f2(b, c, d), a, b, m.add(x[1], m.word(0xf61e2562)), 5);
    d := Step(m, m.f2(a, b, c), d, a, m.add(x[6], m.word(0xc040b340)), 9);
    c := Step(m, m.f2(d, a, b), c, d, m.add(x[11], m.word(0x265e5a51)), 14);
    b := Step(m, m.f2(c, d, a), b, c, m.add(x[0], m.word(0xe9b6c7aa)), 20);
    Quad(m, x[..], start, 20, a, b, c, d);
    a := Step(m, m.f2(b, c, d), a, b, m.add(x[5], m.word(0xd62f105d)), 5);
    d := Step(m, m.f2(a, b, c), d, a, m.add(x[10], m.word(0x02441453)), 9);
    c := Step(m, m.f2(d, a, b), c, d, m.add(x[15], m.word(0xd8a1e681)), 14);
    b := Step(m, m.f2(c, d, a), b, c, m.add(x[4], m.word(0xe7d3fbc8)), 20);
  }

  /** minidownloader/md5.c:216-223. */
  method Steps24<W>(m: Alu<W>, x: array<W>, a0: W, b0: W, c0: W, d0: W, ghost start: Regs<W>)
    returns (a: W, b: W, c: W, d: W)
    requires x.Length == 16 && CodeTurns(m, x[..], start, 24) == Regs(a0, b0, c0, d0)
    ensures CodeTurns(m, x[..], start, 32) == Regs(a, b, c, d)
  {
    a, b, c, d := a0, b0, c0, d0;
    Quad(m, x[..], start, 24, a, b, c, d);
    a := Step(m, m.f2(b, c, d), a, b, m.add(x[9], m.word(0x21e1cde6)), 5);
    d := Step(m, m.f2(a, b, c), d, a, m.add(x[14], m.word(0xc33707d6)), 9);
    c := Step(m, m.f2(d, a, b), c, d, m.add(x[3], m.word(0xf4d50d87)), 14);
    b := Step(m, m.f2(c, d, a), b, c, m.add(x[8], m.word(0x455a14ed)), 20);
    Quad(m, x[..], start, 28, a, b, c, d);
    a := Step(m, m.f2(b, c, d), a, b, m.add(x[13], m.word(0xa9e3e905)), 5);
    d := Step(m, m.f2(a, b, c), d, a, m.add(x[2], m.word(0xfcefa3f8)), 9);
    c := Step(m, m.f2(d, a, b), c, d, m.add(x[7], m.word(0x676f02d9)), 14);
    b := Step(m, m.f2(c, d, a), b, c, m.add(x[12], m.word(0x8d2a4c8a)), 20);
  }

  /** minidownloader/md5.c:225-232. */
  method Steps32<W>(m: Alu<W>, x: array<W>, a0: W, b0: W, c0: W, d0: W, ghost start: Regs<W>)
    returns (a: W, b: W, c: W, d: W)
    requires x.Length == 16 && CodeTurns(m, x[..], start, 32) == Regs(a0, b0, c0, d0)
    ensures CodeTurns(m, x[..], start, 40) == Regs(a, b, c, d)
  {
    a, b, c, d := a0, b0, c0, d0;
    Quad(m, x[..], start, 32, a, b, c, d);
    a := Step(m, m.f3(b, c, d), a, b, m.add(x[5], m.word(0xfffa3942)), 4);
    d := Step(m, m.f3(a, b, c), d, a, m.add(x[8], m.word(0x8771f681)), 11);
    c := Step(m, m.f3(d, a, b), c, d, m.add(x[11], m.word(0x6d9d6122)), 16);
    b := Step(m, m.f3(c, d, a), b, c, m.add(x[14], m.word(0xfde5380c)), 23);
    Quad(m, x[..], start, 36, a, b, c, d);
    a := Step(m, m.f3(b, c, d), a, b, m.add(x[1], m.word(0xa4beea44)), 4);
    d := Step(m, m.f3(a, b, c), d, a, m.add(x[4], m.word(0x4bdecfa9)), 11);
    c := Step(m, m.f3(d, a, b), c, d, m.add(x[7], m.word(0xf6bb4b60)), 16);
    b := Step(m, m.f3(c, d, a), b, c, m.add(x[10], m.word(0xbebfbc70)), 23);
  }

  /** minidownloader/md5.c:233-240. */
  method Steps40<W>(m: Alu<W>, x: array<W>, a0: W, b0: W, c0: W, d0: W, ghost start: Regs<W>)
    returns (a: W, b: W, c: W, d: W)
    requires x.Length == 16 && CodeTurns(m, x[..], start, 40) == Regs(a0, b0, c0, d0)
    ensures CodeTurns(m, x[..], start, 48) == Regs(a, b, c, d)
  {
    a, b, c, d := a0, b0, c0, d0;
    Quad(m, x[..], start, 40, a, b, c, d);
    a := Step(m, m.f3(b, c, d), a, b, m.add(x[13], m.word(0x289b7ec6)), 4);
    d := Step(m, m.f3(a, b, c), d, a, m.add(x[0], m.word(0xeaa127fa)), 11);
    c := Step(m, m.f3(d, a, b), c, d, m.add(x[3], m.word(0xd4ef3085)), 16);
    b := Step(m, m.f3(c, d, a), b, c, m.add(x[6], m.word(0x04881d05)), 23);
    Quad(m, x[..], start, 44, a, b, c, d);
    a := Step(m, m.f3(b, c, d), a, b, m.add(x[9], m.word(0xd9d4d039)), 4);
    d := Step(m, m.f3(a, b, c), d, a, m.add(x[12], m.word(0xe6db99e5)), 11);
    c := Step(m, m.f3(d, a, b), c, d, m.add(x[15], m.word(0x1fa27cf8)), 16);
    b := Step(m, m.f3(c, d, a), b, c, m.add(x[2], m.word(0xc4ac5665)), 23);
  }

  /** minidownloader/md5.c:242-249. */
  method Steps48<W>(m: Alu<W>, x: array<W>, a0: W, b0: W, c0: W, d0: W, ghost start: Regs<W>)
    returns (a: W, b: W, c: W, d: W)
    requires x.Length == 16 && CodeTurns(m, x[..], start, 48) == Regs(a0, b0, c0, d0)
    ensures CodeTurns(m, x[..], start, 56) == Regs(a, b, c, d)
  {
    a, b, c, d := a0, b0, c0, d0;
    Quad(m, x[..], start, 48, a, b, c, d);
    a := Step(m, m.f4(b, c, d), a, b, m.add(x[0], m.word(0xf4292244)), 6);
    d := Step(m, m.f4(a, b, c), d, a, m.add(x[7], m.word(0x432aff97)), 10);
    c := Step(m, m.f4(d, a, b), c, d, m.add(x[14], m.word(0xab9423a7)), 15);
    b := Step(m, m.f4(c, d, a), b, c, m.add(x[5], m.word(0xfc93a039)), 21);
    Quad(m, x[..], start, 52, a, b, c, d);
    a := Step(m, m.f4(b, c, d), a, b, m.add(x[12], m.word(0x655b59c3)), 6);
    d := Step(m, m.f4(a, b, c), d, a, m.add(x[3], m.word(0x8f0ccc92)), 10);
    c := Step(m, m.f4(d, a, b), c, d, m.add(x[10], m.word(0xffeff47d)), 15);
    b := Step(m, m.f4(c, d, a), b, c, m.add(x[1], m.word(0x85845dd1)), 21);
  }

  /** minidownloader/md5.c:250-257. */
  method Steps56<W>(m: Alu<W>, x: array<W>, a0: W, b0: W, c0: W, d0: W, ghost start: Regs<W>)
    returns (a: W, b: W, c: W, d: W)
    requires x.Length == 16 && CodeTurns(m, x[..], start, 56) == Regs(a0, b0, c0, d0)
    ensures CodeTurns(m, x[..], start, 64) == Regs(a, b, c, d)
  {
    a, b, c, d := a0, b0, c0, d0;
    Quad(m, x[..], start, 56, a, b, c, d);
    a := Step(m, m.f4(b, c, d), a, b, m.add(x[8], m.word(0x6fa87e4f)), 6);
    d := Step(m, m.f4(a, b, c), d, a, m.add(x[15], m.word(0xfe2ce6e0)), 10);
    c := Step(m, m.f4(d, a, b), c, d, m.add(x[6], m.word(0xa3014314)), 15);
    b := Step(m, m.f4(c, d, a), b, c, m.add(x[13], m.word(0x4e0811a1)), 21);
    Quad(m, x[..], start, 60, a, b, c, d);
    a := Step(m, m.f4(b, c, d), a, b, m.add(x[4], m.word(0xf7537e82)), 6);
    d := Step(m, m.f4(a, b, c), d, a, m.add(x[11], m.word(0xbd3af235)), 10);
    c := Step(m, m.f4(d, a, b), c, d, m.add(x[2], m.word(0x2ad7d2bb)), 15);
    b := Step(m, m.f4(c, d, a), b, c, m.add(x[9], m.word(0xeb86d391)), 21);
  }

  /** minidownloader/md5.c:181-263. */
  method Transform<W>(m: Alu<W>, buf: array<W>, x: array<W>)
    requires buf.Length == 4 && x.Length == 16 && buf != x
    modifies buf
    ensures Regs(buf[0], buf[1], buf[2], buf[3])
      == CodeCompressed(m, x[..], old(Regs(buf[0], buf[1], buf[2], buf[3])))
  {
    ghost var start := Regs(buf[0], buf[1], buf[2], buf[3]);
    var a, b, c, d := buf[0], buf[1], buf[2], buf[3];
    a, b, c, d := Steps0(m, x, a, b, c, d, start);
    a, b, c, d := Steps8(m, x, a, b, c, d, start);
    a, b, c, d := Steps16(m, x, a, b, c, d, start);
    a, b, c, d := Steps24(m, x, a, b, c, d, start);
    a, b, c, d := Steps32(m, x, a, b, c, d, start);
    a, b, c, d := Steps40(m, x, a, b, c, d, start);
    a, b, c, d := Steps48(m, x, a, b, c, d, start);
    a, b, c, d := Steps56(m, x, a, b, c, d, start);
    buf[0] := m.add(buf[0], a);
    buf[1] := m.add(buf[1], b);
    buf[2] := m.add(buf[2], c);
    buf[3] := m.add(buf[3], d);
  }

  // ------------------------------------------------------------ words and bytes together

  lemma Select(x: bv32, y: bv32, z: bv32)
    ensures z ^ (x & (y ^ z)) == (x & y) | (!x & z)
  {
  }

  lemma SelectLast(x: bv32, y: bv32, z: bv32)
    ensures y ^ (z & (x ^ y)) == (x & z) | (y & !z)
  {
  }

  lemma SumAssociates(a: Word, b: Word, c: Word)
    ensures Sum(a, Sum(b, c)) == Sum(Sum(a, b), c)
  {
  }

  lemma FirstBits(i: nat, x: bv32, y: bv32, z: bv32)
    requires i < 16
    ensures F1Bits(x, y, z) == AuxBits(i, x, y, z)
  {
    Select(x, y, z);
  }

  lemma SecondBits(i: nat, x: bv32, y: bv32, z: bv32)
    requires 16 <= i < 32
    ensures F1Bits(z, x, y) == AuxBits(i, x, y, z)
  {
    SelectLast(x, y, z);
  }

  lemma FirstAux(i: nat, x: Word, y: Word, z: Word)
    requires i < 16
    ensures F1(x, y, z) == Aux(i, x, y, z)
  {
    FirstBits(i, x as bv32, y as bv32, z as bv32);
  }

  lemma SecondAux(i: nat, x: Word, y: Word, z: Word)
    requires 16 <= i < 32
    ensures F2(x, y, z) == Aux(i, x, y, z)
  {
    SecondBits(i, x as bv32, y as bv32, z as bv32);
  }

  lemma ThirdAux(i: nat, x: Word, y: Word, z: Word)
    requires 32 <= i < 48
    ensures F3(x, y, z) == Aux(i, x, y, z)
  {
  }

  lemma FourthAux(i: nat, x: Word, y: Word, z: Word)
    requires 48 <= i
    ensures F4(x, y, z) == Aux(i, x, y, z)
  {
  }

  lemma CodeIsAux(i: nat, x: Word, y: Word, z: Word)
    ensures Bits().aux(i, x, y, z) == Code(Bits(), i, x, y, z)
  {
    if i < 16 {
      FirstAux(i, x, y, z);
    } else if i < 32 {
      SecondAux(i, x, y, z);
    } else if i < 48 {
      ThirdAux(i, x, y, z);
    } else {
      FourthAux(i, x, y, z);
    }
  }

  lemma BitsAssociate()
    ensures Associates(Bits())
  {
    forall a, b, c
      ensures Bits().add(a, Bits().add(b, c)) == Bits().add(Bits().add(a, b), c)
    {
      SumAssociates(a, b, c);
    }
  }

  lemma BitsCommute()
    ensures Commutes(Bits())
  {
  }

  lemma BitsSameFunctions()
    ensures SameFunctions(Bits())
  {
    forall i, x, y, z
      ensures Bits().aux(i, x, y, z) == Code(Bits(), i, x, y, z)
    {
      CodeIsAux(i, x, y, z);
    }
  }

  /** The registers after MD5Init. */
  function Start(): Regs<Word> { Regs(0x67452301, 0xefcdab89, 0x98badcfe, 0x10325476) }

  /** Word k of a block of bytes, low-order byte first. */
  function WordOf(block: seq<Md5.Byte>, k: nat): Word {
    if 4 * k + 3 < |block| then
      Low((block[4 * k] as int) + 0x100 * (block[4 * k + 1] as int)
           + 0x1_0000 * (block[4 * k + 2] as int) + 0x100_0000 * (block[4 * k + 3] as int))
    else 0
  }

  /** Reading a word undoes writing it. */
  lemma WordOfLittleEndian(w: Word)
    ensures WordOf(Md5.LittleEndian(w), 0) == w
  {
    var q, r, s := w / 0x100, w / 0x1_0000, w / 0x100_0000;
    Quotients(w);
    var b := Md5.LittleEndian(w);
    assert b == [w % 0x100, q % 0x100, r % 0x100, s % 0x100];
    assert WordOf(b, 0) == Low((w % 0x100) + 0x100 * (q % 0x100) + 0x1_0000 * (r % 0x100) + 0x100_0000 * (s % 0x100));
  }

  lemma Quotients(w: Word)
    ensures w % 0x100 + 0x100 * (w / 0x100 % 0x100) + 0x1_0000 * (w / 0x1_0000 % 0x100)
      + 0x100_0000 * (w / 0x100_0000 % 0x100) == w
  {
    assert w / 0x1_0000 == w / 0x100 / 0x100;
    assert w / 0x100_0000 == w / 0x1_0000 / 0x100;
    assert w / 0x100_0000 < 0x100;
  }

  lemma WordAfter(before: seq<Md5.Byte>, w: Word, rest: seq<Md5.Byte>, k: nat)
    requires |before| == 4 * k
    ensures WordOf(before + Md5.LittleEndian(w) + rest, k) == w
  {
    WordOfLittleEndian(w);
    var b, all := Md5.LittleEndian(w), before + Md5.LittleEndian(w) + rest;
    assert all[4 * k] == b[0] && all[4 * k + 1] == b[1] && all[4 * k + 2] == b[2] && all[4 * k + 3] == b[3];
  }

  /** Lines 154 and 155: words 14 and 15 of the last block are bits[0] and bits[1]. */
  lemma LengthIsLastWords(before: seq<Md5.Byte>, lo: Word, hi: Word)
    requires |before| == 56
    ensures var x := Words(before + (Md5.LittleEndian(lo) + Md5.LittleEndian(hi)));
      x[14] == lo && x[15] == hi
  {
    var a, b := Md5.LittleEndian(lo), Md5.LittleEndian(hi);
    WordAfter(before, lo, b, 14);
    WordAfter(before + a, hi, [], 15);
    assert before + a + b == before + (a + b) && before + a + b + [] == before + (a + b);
  }

  function Words(block: seq<Md5.Byte>): (x: seq<Word>)
    ensures |x| == 16
  {
    seq(16, k requires 0 <= k => WordOf(block, k))
  }

  /** The compression of a block of bytes, as section 3.4 has it. */
  function OfBytes(r: Regs<Word>, block: seq<Md5.Byte>): Regs<Word> {
    Compressed(Bits(), Words(block), r)
  }

  /** The code compresses a block as the standard does. */
  lemma CodeCompressesBytes(r: Regs<Word>, block: seq<Md5.Byte>)
    ensures CodeCompressed(Bits(), Words(block), r) == OfBytes(r, block)
  {
    BitsAssociate();
    BitsCommute();
    BitsSameFunctions();
    CodeIsStandard(Bits(), Words(block), r, 64);
  }

  /** MD5Transform(ctx->buf, (uint32 *) ctx->in) on a little-endian machine. */
  method TransformBytes(buf: array<Word>, input: array<Md5.Byte>)
    requires buf.Length == 4 && input.Length == 64
    modifies buf
    ensures Regs(buf[0], buf[1], buf[2], buf[3])
      == OfBytes(old(Regs(buf[0], buf[1], buf[2], buf[3])), input[..])
  {
    var block := input[..];
    var x := new Word[16](k requires 0 <= k => WordOf(block, k));
    assert x[..] == Words(block);
    ghost var start := Regs(buf[0], buf[1], buf[2], buf[3]);
    Transform(Bits(), buf, x);
    CodeCompressesBytes(start, block);
  }

  /** However a message is cut into updates, the registers in the end are those of MD5 for
      the whole message. */
  lemma AnySplitIsMd5(input: seq<Md5.Byte>, parts: seq<seq<Md5.Byte>>)
    requires |input| == 64
    ensures Md5.Final(OfBytes, Md5.Updates(OfBytes, Md5.Init(Start(), input), parts))
      == Md5.Digest(OfBytes, Start(), Md5.Concat(parts))
  {
    Md5.AnySplit(OfBytes, Start(), input, parts);
  }
}

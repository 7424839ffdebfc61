// What the base64 coder and decoder make of each other's output, and what they mean bit by bit.
module Base64RoundTrip {
  import opened Wrappers
  import opened Sequences
  import opened Words
  import opened Base64

  // --- groups of three bytes and four codes ---

  lemma CodesOfGroup(x: Bytes, g: nat)
    ensures CodeAt(x, 4 * g) == ByteOr0(x, 3 * g) >> 2
    ensures CodeAt(x, 4 * g + 1) == ((ByteOr0(x, 3 * g) & 0x03) << 4) | (ByteOr0(x, 3 * g + 1) >> 4)
    ensures CodeAt(x, 4 * g + 2) == ((ByteOr0(x, 3 * g + 1) & 0x0f) << 2) | (ByteOr0(x, 3 * g + 2) >> 6)
    ensures CodeAt(x, 4 * g + 3) == ByteOr0(x, 3 * g + 2) & 0x3f
  {
  }

  // --- the bits, after section 4 of RFC 4648 ---

  // The bits of a byte, the most significant first, and those of a code.
  function ByteBits(b: Byte): seq<bool> {
    [b & 0x80 != 0, b & 0x40 != 0, b & 0x20 != 0, b & 0x10 != 0,
     b & 0x08 != 0, b & 0x04 != 0, b & 0x02 != 0, b & 0x01 != 0]
  }

  function CodeBits(v: Code): seq<bool> {
    var b: Byte := v;
    [b & 0x20 != 0, b & 0x10 != 0, b & 0x08 != 0, b & 0x04 != 0, b & 0x02 != 0, b & 0x01 != 0]
  }

  function BitsOfBytes(x: Bytes): seq<bool> {
    if x == [] then [] else ByteBits(x[0]) + BitsOfBytes(x[1..])
  }

  function BitsOfCodes(q: seq<Code>): seq<bool> {
    if q == [] then [] else CodeBits(q[0]) + BitsOfCodes(q[1..])
  }

  lemma FirstSix(a: Byte)
    ensures CodeBits(a >> 2) == ByteBits(a)[..6]
  {
  }

  lemma NextSix(a: Byte, b: Byte)
    ensures CodeBits(((a & 0x03) << 4) | (b >> 4)) == ByteBits(a)[6..] + ByteBits(b)[..4]
  {
  }

  lemma ThirdSix(b: Byte, c: Byte)
    ensures CodeBits(((b & 0x0f) << 2) | (c >> 6)) == ByteBits(b)[4..] + ByteBits(c)[..2]
  {
  }

  lemma LastSix(c: Byte)
    ensures CodeBits(c & 0x3f) == ByteBits(c)[2..]
  {
  }

  lemma CodeAtHead(x: Bytes, j: nat)
    requires |x| > 3 && j < 4
    ensures CodeAt(x, j) == CodeAt(x[..3], j)
  {
  }

  lemma CodeAtTail(x: Bytes, j: nat)
    requires |x| > 3 && j >= 4
    ensures CodeAt(x, j) == CodeAt(x[3..], j - 4)
  {
    var t := j / 4 * 3;
    assert (j - 4) / 4 * 3 == t - 3;
    var y := x[3..];
    assert ByteOr0(x, t) == ByteOr0(y, t - 3);
    assert ByteOr0(x, t + 1) == ByteOr0(y, t - 2);
    assert ByteOr0(x, t + 2) == ByteOr0(y, t - 1);
  }

  lemma CodesTail(x: Bytes)
    requires |x| > 3
    ensures Codes(x) == Codes(x[..3]) + Codes(x[3..])
  {
    forall j: nat | j < 4 ensures Codes(x)[j] == Codes(x[..3])[j] {
      CodeAtHead(x, j);
    }
    forall j: nat | 4 <= j < |Codes(x)| ensures Codes(x)[j] == Codes(x[3..])[j - 4] {
      CodeAtTail(x, j);
    }
  }

  function Zeros(n: nat): seq<bool> { seq(n, i => false) }

  lemma {:induction false} BitsAppend(p: seq<Code>, q: seq<Code>)
    ensures BitsOfCodes(p + q) == BitsOfCodes(p) + BitsOfCodes(q)
  {
    if p == [] {
      assert p + q == q;
    } else {
      BitsAppend(p[1..], q);
      assert (p + q)[1..] == p[1..] + q;
      Associate(CodeBits(p[0]), BitsOfCodes(p[1..]), BitsOfCodes(q));
    }
  }

  lemma BitsOfFour(a: Code, b: Code, c: Code, d: Code)
    ensures BitsOfCodes([a]) == CodeBits(a)
    ensures BitsOfCodes([a, b]) == CodeBits(a) + CodeBits(b)
    ensures BitsOfCodes([a, b, c]) == CodeBits(a) + CodeBits(b) + CodeBits(c)
    ensures BitsOfCodes([a, b, c, d]) == CodeBits(a) + CodeBits(b) + CodeBits(c) + CodeBits(d)
  {
    BitsOfOne(a);
    BitsOfOne(b);
    BitsOfOne(c);
    BitsOfOne(d);
    BitsAppend([a], [b]);
    BitsAppend([a, b], [c]);
    BitsAppend([a, b, c], [d]);
    assert [a] + [b] == [a, b] && [a, b] + [c] == [a, b, c] && [a, b, c] + [d] == [a, b, c, d];
  }

  lemma BitsOfOne(a: Code)
    ensures BitsOfCodes([a]) == CodeBits(a)
  {
    assert CodeBits(a) + [] == CodeBits(a);
  }

  lemma BitsOfThree(a: Byte, b: Byte, c: Byte)
    ensures BitsOfBytes([a]) == ByteBits(a)
    ensures BitsOfBytes([a, b]) == ByteBits(a) + ByteBits(b)
    ensures BitsOfBytes([a, b, c]) == ByteBits(a) + ByteBits(b) + ByteBits(c)
  {
    BitsOfByte(a);
    BitsOfByte(b);
    BitsOfByte(c);
    BytesAppend([a], [b]);
    BytesAppend([a, b], [c]);
    assert [a] + [b] == [a, b] && [a, b] + [c] == [a, b, c];
  }

  lemma BitsOfByte(a: Byte)
    ensures BitsOfBytes([a]) == ByteBits(a)
  {
    assert ByteBits(a) + [] == ByteBits(a);
  }

  lemma {:induction false} BytesAppend(x: Bytes, y: Bytes)
    ensures BitsOfBytes(x + y) == BitsOfBytes(x) + BitsOfBytes(y)
  {
    if x == [] {
      assert x + y == y;
    } else {
      BytesAppend(x[1..], y);
      assert (x + y)[1..] == x[1..] + y;
      Associate(ByteBits(x[0]), BitsOfBytes(x[1..]), BitsOfBytes(y));
    }
  }

  // The seams between the bytes and the codes of a group.
  lemma Seams<T>(a: seq<T>, b: seq<T>, c: seq<T>)
    requires |a| == |b| == |c| == 8
    ensures a[..6] + (a[6..] + b[..4]) == a + b[..4]
    ensures a[..6] + (a[6..] + b[..4]) + (b[4..] + c[..2]) == a + b + c[..2]
    ensures a[..6] + (a[6..] + b[..4]) + (b[4..] + c[..2]) + c[2..] == a + b + c
  {
  }

  // The first n codes of a group are the first 6 * n bits of its bytes.
  lemma GroupBits(a: Byte, b: Byte, c: Byte, q: seq<Code>)
    requires |q| == 4 && q[0] == a >> 2 && q[1] == ((a & 0x03) << 4) | (b >> 4)
    requires q[2] == ((b & 0x0f) << 2) | (c >> 6) && q[3] == c & 0x3f
    ensures BitsOfCodes(q[..2]) == ByteBits(a) + ByteBits(b)[..4]
    ensures BitsOfCodes(q[..3]) == ByteBits(a) + ByteBits(b) + ByteBits(c)[..2]
    ensures BitsOfCodes(q) == ByteBits(a) + ByteBits(b) + ByteBits(c)
  {
    FirstSix(a);
    NextSix(a, b);
    ThirdSix(b, c);
    LastSix(c);
    Seams(ByteBits(a), ByteBits(b), ByteBits(c));
    BitsOfSlices(q);
  }

  lemma BitsOfSlices(q: seq<Code>)
    requires |q| == 4
    ensures BitsOfCodes(q[..2]) == CodeBits(q[0]) + CodeBits(q[1])
    ensures BitsOfCodes(q[..3]) == CodeBits(q[0]) + CodeBits(q[1]) + CodeBits(q[2])
    ensures BitsOfCodes(q) == CodeBits(q[0]) + CodeBits(q[1]) + CodeBits(q[2]) + CodeBits(q[3])
  {
    BitsOfFour(q[0], q[1], q[2], q[3]);
    assert q[..2] == [q[0], q[1]];
    assert q[..3] == [q[0], q[1], q[2]];
    assert q == [q[0], q[1], q[2], q[3]];
  }

  lemma OneByteBits(x: Bytes, q: seq<Code>)
    requires |x| == 1 && |q| == 2 && q[0] == x[0] >> 2 && q[1] == ((x[0] & 0x03) << 4) | (0 >> 4)
    ensures BitsOfCodes(q) == BitsOfBytes(x) + Zeros(4)
  {
    var a := x[0];
    GroupBits(a, 0, 0, q + [0, 0]);
    assert q == (q + [0, 0])[..2] && x == [a];
    BitsOfThree(a, 0, 0);
    ZeroBits();
  }

  lemma TwoByteBits(x: Bytes, q: seq<Code>)
    requires |x| == 2 && |q| == 3 && q[0] == x[0] >> 2 && q[1] == ((x[0] & 0x03) << 4) | (x[1] >> 4)
    requires q[2] == ((x[1] & 0x0f) << 2) | (0 >> 6)
    ensures BitsOfCodes(q) == BitsOfBytes(x) + Zeros(2)
  {
    var a, b := x[0], x[1];
    GroupBits(a, b, 0, q + [0]);
    assert q == (q + [0])[..3] && x == [a, b];
    BitsOfThree(a, b, 0);
    ZeroBits();
  }

  lemma ThreeByteBits(x: Bytes, q: seq<Code>)
    requires |x| == 3 && |q| == 4 && q[0] == x[0] >> 2 && q[1] == ((x[0] & 0x03) << 4) | (x[1] >> 4)
    requires q[2] == ((x[1] & 0x0f) << 2) | (x[2] >> 6) && q[3] == x[2] & 0x3f
    ensures BitsOfCodes(q) == BitsOfBytes(x) + Zeros(0)
  {
    var a, b, c := x[0], x[1], x[2];
    GroupBits(a, b, c, q);
    assert x == [a, b, c];
    BitsOfThree(a, b, c);
    NoZeros(BitsOfBytes([a, b, c]));
  }

  lemma FirstGroup(x: Bytes)
    requires 0 < |x| <= 3
    ensures BitsOfCodes(Codes(x)) == BitsOfBytes(x) + Zeros(6 * |Codes(x)| - 8 * |x|)
  {
    var q := Codes(x);
    CodesOfGroup(x, 0);
    match |x| {
      case 1 => OneByteBits(x, q);
      case 2 => TwoByteBits(x, q);
      case _ => ThreeByteBits(x, q);
    }
  }

  lemma NoZeros(s: seq<bool>)
    ensures s + Zeros(0) == s
  {
  }

  lemma ZeroBits()
    ensures ByteBits(0)[..4] == Zeros(4) && ByteBits(0)[..2] == Zeros(2)
  {
  }

  // The codes are the bits of the bytes cut in groups of six, the last group filled with zeros.
  lemma {:induction false} CodesKeepBits(x: Bytes)
    ensures BitsOfCodes(Codes(x)) == BitsOfBytes(x) + Zeros(6 * |Codes(x)| - 8 * |x|)
  {
    if |x| > 3 {
      var head, tail := x[..3], x[3..];
      var zeros := Zeros(6 * |Codes(tail)| - 8 * |tail|);
      CodesTail(x);
      BitsAppend(Codes(head), Codes(tail));
      BytesAppend(head, tail);
      FirstGroup(head);
      CodesKeepBits(tail);
      NoZeros(BitsOfBytes(head));
      Associate(BitsOfBytes(head), BitsOfBytes(tail), zeros);
      assert head + tail == x && 6 * |Codes(x)| - 8 * |x| == |zeros|;
    } else if |x| > 0 {
      FirstGroup(x);
    }
  }

  // --- decoding what was encoded ---

  lemma JoinFirst(x: Bytes, g: nat)
    requires 3 * g < |x|
    ensures ByteAt(Codes(x), 3 * g) == x[3 * g]
  {
    CodesOfGroup(x, g);
    FirstByte(Codes(x), g);
  }

  lemma JoinSecond(x: Bytes, g: nat)
    requires 3 * g + 1 < |x|
    ensures ByteAt(Codes(x), 3 * g + 1) == x[3 * g + 1]
  {
    CodesOfGroup(x, g);
    SecondByte(Codes(x), g);
  }

  lemma JoinThird(x: Bytes, g: nat)
    requires 3 * g + 2 < |x|
    ensures ByteAt(Codes(x), 3 * g + 2) == x[3 * g + 2]
  {
    CodesOfGroup(x, g);
    ThirdByte(Codes(x), g);
  }

  lemma JoinCodes(x: Bytes)
    ensures Join(Codes(x)) == x
  {
    assert |Codes(x)| * 3 / 4 == |x|;
    forall i: nat | i < |x| ensures Join(Codes(x))[i] == x[i] {
      match i % 3 {
        case 0 => JoinFirst(x, i / 3);
        case 1 => JoinSecond(x, i / 3);
        case _ => JoinThird(x, i / 3);
      }
    }
  }

  lemma ScanLetter(v: Code, rest: string)
    ensures CodesIn([Letter(v)] + rest) == [v] + CodesIn(rest)
    ensures EndOf([Letter(v)] + rest) == EndOf(rest)
  {
    SymbolOfLetter(v);
    assert ([Letter(v)] + rest)[1..] == rest;
  }

  lemma {:induction false} ScanLetters(q: seq<Code>, rest: string)
    ensures CodesIn(Letters(q) + rest) == q + CodesIn(rest)
    ensures EndOf(Letters(q) + rest) == EndOf(rest)
  {
    if q == [] {
      assert Letters(q) + rest == rest;
    } else {
      ScanLetters(q[1..], rest);
      ScanLetter(q[0], Letters(q[1..]) + rest);
      LettersCons(q, rest);
      SplitHead(q, CodesIn(rest));
    }
  }

  lemma LettersCons(q: seq<Code>, rest: string)
    requires q != []
    ensures Letters(q) + rest == [Letter(q[0])] + (Letters(q[1..]) + rest)
  {
    SplitHead(Letters(q), rest);
    assert Letters(q)[1..] == Letters(q[1..]);
  }

  lemma ScanSpelled(q: seq<Code>)
    ensures CodesIn(Spelled(q)) == q
    ensures EndOf(Spelled(q)) == if |q| % 4 >= 2 then AtPad else AtEnd
  {
    ScanLetters(q, Pads(|q|));
  }

  lemma DecodeSpelled(x: Bytes)
    ensures Decoded(Spelled(Codes(x))) == Some(x)
  {
    var q := Codes(x);
    assert |q| % 4 != 1;
    ScanSpelled(q);
    JoinCodes(x);
  }

  lemma SeenIff(x: Bytes)
    ensures Seen(x) == x <==> |x| < TWO31
  {
    assert |x| < TWO31 ==> Seen(x) == x[..|x|] == x;
  }

  // Decoding gives the input back exactly when its length fits the encoder's int.
  lemma RoundTripIff(x: Bytes)
    ensures Decoded(Spelled(Codes(Seen(x)))) == Some(x) <==> |x| < TWO31
  {
    DecodeSpelled(Seen(x));
    SeenIff(x);
  }

  // A length that the encoder's int takes for negative spells one group of zeros.
  lemma NegativeLength(x: Bytes)
    requires 0x8000_0000 <= |x| % 0x1_0000_0000
    ensures Spelled(Codes(Seen(x))) == "AAA="
  {
    SeenNegative(x);
    ThreeZeros([0, 0]);
    ZerosSpelled([0, 0, 0]);
  }

  lemma SeenNegative(x: Bytes)
    requires 0x8000_0000 <= |x| % 0x1_0000_0000
    ensures Seen(x) == [0, 0]
  {
    var k, r := |x| / TWO32, |x| % TWO32;
    assert |x| + TWO31 == (k + 1) * TWO32 + (r - TWO31);
    assert (|x| + TWO31) % TWO32 == r - TWO31;
  }

  lemma ZerosSpelled(q: seq<Code>)
    requires q == [0, 0, 0]
    ensures Spelled(q) == "AAA="
  {
    LetterAt(0);
    assert Letters(q) == ['A', 'A', 'A'];
  }

  lemma ThreeZeros(y: Bytes)
    requires y == [0, 0]
    ensures Codes(y) == [0, 0, 0]
  {
    CodesOfGroup(y, 0);
    assert CodeAt(y, 0) == 0 && CodeAt(y, 1) == 0 && CodeAt(y, 2) == 0;
  }

  // The encoding of such an input is within the decoder's limits.
  lemma EncodingFits(x: Bytes)
    requires |x| < TWO31
    ensures var t := Spelled(Codes(Seen(x))); |t| < TWO32 && |CodesIn(t)| * 3 / 4 < TWO31
  {
    SeenIff(x);
    ScanSpelled(Codes(x));
  }

  // --- texts that mean the same ---

  // The characters before the first pad that are not white space, and the pad.
  function Essence(t: string): string {
    if t == [] then []
    else
      match SymbolOf(t[0])
      case Pad => [PAD]
      case Space => Essence(t[1..])
      case _ => [t[0]] + Essence(t[1..])
  }

  lemma {:induction false} ScanEssence(t: string)
    ensures CodesIn(Essence(t)) == CodesIn(t) && EndOf(Essence(t)) == EndOf(t)
  {
    if t != [] && SymbolOf(t[0]) != Pad {
      ScanEssence(t[1..]);
      if SymbolOf(t[0]) != Space {
        assert Essence(t)[1..] == Essence(t[1..]);
      }
    }
  }

  lemma SameEssence(t1: string, t2: string)
    requires Essence(t1) == Essence(t2)
    ensures Decoded(t1) == Decoded(t2)
  {
    ScanEssence(t1);
    ScanEssence(t2);
  }

  lemma {:induction false} SpacesDropped(a: string, spaces: string, b: string)
    requires forall i | 0 <= i < |spaces| :: SymbolOf(spaces[i]) == Space
    ensures Essence(a + spaces + b) == Essence(a + b)
    decreases |a|, |spaces|
  {
    if a != [] {
      SpacesDropped(a[1..], spaces, b);
      SplitFirst(a + spaces, b, 1);
      SplitFirst(a, spaces, 1);
      SplitFirst(a, b, 1);
    } else if spaces != [] {
      SpacesDropped(a, spaces[1..], b);
      assert a + spaces == spaces && a + spaces[1..] == spaces[1..];
      SplitFirst(spaces, b, 1);
    } else {
      assert a + spaces == a;
    }
  }

  lemma SpacesAnywhere(a: string, spaces: string, b: string)
    requires forall i | 0 <= i < |spaces| :: SymbolOf(spaces[i]) == Space
    ensures Essence(a + spaces + b) == Essence(a + b)
    ensures Decoded(a + spaces + b) == Decoded(a + b)
  {
    SpacesDropped(a, spaces, b);
    SameEssence(a + spaces + b, a + b);
  }

  // --- encoding what was decoded ---

  // Letters and pads only, in whole groups of four, and no bit set beyond the last byte.
  ghost predicate Canonical(t: string) {
    var q := CodesIn(t);
    t == Spelled(q) && Clean(q)
  }

  // No bit set beyond the last byte.
  ghost predicate Clean(q: seq<Code>) {
    |q| % 4 != 1 && (|q| % 4 != 0 ==> Spill(q) == 0)
  }

  // What the bits of two neighbouring bytes give back of the code between them.
  lemma SecondBits(p: Byte, q: Byte, r: Byte)
    requires p < 64 && q < 64 && r < 64
    ensures (((((p & 0x3f) << 2) | (q >> 4)) & 0x03) << 4) | ((((q & 0x0f) << 4) | (r >> 2)) >> 4) == q
    ensures (q & 0x0f) << 4 == 0 ==> (((((p & 0x3f) << 2) | (q >> 4)) & 0x03) << 4) | (0 >> 4) == q
  {
  }

  lemma ThirdBits(p: Byte, q: Byte, r: Byte)
    requires p < 64 && q < 64 && r < 64
    ensures (((((p & 0x0f) << 4) | (q >> 2)) & 0x0f) << 2) | ((((q & 0x03) << 6) | r) >> 6) == q
    ensures (q & 0x03) << 6 == 0 ==> (((((p & 0x0f) << 4) | (q >> 2)) & 0x0f) << 2) | (0 >> 6) == q
  {
  }

  // The bytes of a group that the codes make, and zeros where there is no byte.
  lemma FirstOfJoin(q: seq<Code>, g: nat)
    requires 4 * g + 1 < |q|
    ensures ByteOr0(Join(q), 3 * g) == ((q[4 * g] & 0x3f) << 2) | (q[4 * g + 1] >> 4)
  {
    FirstByte(q, g);
  }

  lemma SecondOfJoin(q: seq<Code>, g: nat)
    requires 4 * g + 1 < |q|
    ensures ByteOr0(Join(q), 3 * g + 1)
         == if 4 * g + 2 < |q| then ((q[4 * g + 1] & 0x0f) << 4) | (q[4 * g + 2] >> 2) else 0
  {
    if 4 * g + 2 < |q| { SecondByte(q, g); }
  }

  lemma ThirdOfJoin(q: seq<Code>, g: nat)
    requires 4 * g + 2 < |q|
    ensures ByteOr0(Join(q), 3 * g + 2)
         == if 4 * g + 3 < |q| then ((q[4 * g + 2] & 0x03) << 6) | q[4 * g + 3] else 0
  {
    if 4 * g + 3 < |q| { ThirdByte(q, g); }
  }

  lemma FirstCode(q: seq<Code>, g: nat)
    requires 4 * g < |q| && Clean(q)
    ensures CodeAt(Join(q), 4 * g) == q[4 * g]
  {
    FirstOfJoin(q, g);
    CodesOfGroup(Join(q), g);
  }

  lemma SecondCode(q: seq<Code>, g: nat)
    requires 4 * g + 1 < |q| && Clean(q)
    ensures CodeAt(Join(q), 4 * g + 1) == q[4 * g + 1]
  {
    FirstOfJoin(q, g);
    SecondOfJoin(q, g);
    CodesOfGroup(Join(q), g);
    SecondBits(q[4 * g], q[4 * g + 1], if 4 * g + 2 < |q| then q[4 * g + 2] else 0);
    if 4 * g + 2 == |q| { SpillTwo(q); }
  }

  lemma ThirdCode(q: seq<Code>, g: nat)
    requires 4 * g + 2 < |q| && Clean(q)
    ensures CodeAt(Join(q), 4 * g + 2) == q[4 * g + 2]
  {
    SecondOfJoin(q, g);
    ThirdOfJoin(q, g);
    CodesOfGroup(Join(q), g);
    ThirdBits(q[4 * g + 1], q[4 * g + 2], if 4 * g + 3 < |q| then q[4 * g + 3] else 0);
    if 4 * g + 3 == |q| { SpillThree(q); }
  }

  lemma SpillTwo(q: seq<Code>)
    requires |q| % 4 == 2 && Clean(q)
    ensures (q[|q| - 1] & 0x0f) << 4 == 0
  {
  }

  lemma SpillThree(q: seq<Code>)
    requires |q| % 4 == 3 && Clean(q)
    ensures (q[|q| - 1] & 0x03) << 6 == 0
  {
  }

  lemma FourthCode(q: seq<Code>, g: nat)
    requires 4 * g + 3 < |q|
    ensures CodeAt(Join(q), 4 * g + 3) == q[4 * g + 3]
  {
    ThirdByte(q, g);
    CodesOfGroup(Join(q), g);
  }

  lemma CodeJoinAt(q: seq<Code>, j: nat)
    requires j < |q| && Clean(q)
    ensures CodeAt(Join(q), j) == q[j]
  {
    var g := j / 4;
    if j == 4 * g {
      FirstCode(q, g);
    } else if j == 4 * g + 1 {
      SecondCode(q, g);
    } else if j == 4 * g + 2 {
      ThirdCode(q, g);
    } else {
      FourthCode(q, g);
    }
  }

  // The bytes of q determine all of its codes, if nothing was spilt.
  lemma CodesJoin(q: seq<Code>)
    requires Clean(q)
    ensures Codes(Join(q)) == q
  {
    var x := Join(q);
    assert |Codes(x)| == |q|;
    forall j: nat | j < |q| ensures Codes(x)[j] == q[j] {
      CodeJoinAt(q, j);
    }
  }

  lemma CodesClean(x: Bytes)
    ensures Clean(Codes(x))
  {
  }

  // A text is canonical exactly when decoding and encoding give it back.
  lemma CanonicalIff(t: string)
    ensures Canonical(t) <==> Decoded(t).Some? && Spelled(Codes(Decoded(t).value)) == t
  {
    var q := CodesIn(t);
    if Canonical(t) {
      ScanSpelled(q);
      CodesJoin(q);
    } else if Decoded(t).Some? {
      ScanSpelled(Codes(Decoded(t).value));
      CodesClean(Decoded(t).value);
    }
  }
}

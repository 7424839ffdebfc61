// The base64 coder and decoder. A char of a text stands for one byte.
module Base64 {
  import opened Wrappers
  import opened Words
  import opened Sequences

  type Byte = bv8
  type Code = v: bv8 | v < 64
  type Bytes = seq<Byte>

  const PAD := '='
  const UPPER := "ABCDEFGHIJKLMNOPQRSTUVWXYZ"
  const LOWER := "abcdefghijklmnopqrstuvwxyz"
  const OTHERS := "0123456789+/"
  const ALPHABET := UPPER + LOWER + OTHERS

  function Letter(v: Code): char {
    ALPHABET[v as int]
  }

  // An entry of the decoding table.
  datatype Symbol = Value(value: Code) | Space | Pad | Invalid

  function SymbolOf(c: char): Symbol {
    var v := TableValue(c);
    if 0 <= v < 64 then Value(v as bv8) else if c == PAD then Pad else if v == 255 then Space else Invalid
  }

  function TableValue(c: char): (v: int)
    ensures v in {254, 255, 256} || 0 <= v < 64
  {
    if 'A' <= c <= 'Z' then c as int - 65
    else if 'a' <= c <= 'z' then c as int - 97 + 26
    else if '0' <= c <= '9' then c as int - 48 + 52
    else if c == '+' then 62
    else if c == '/' then 63
    else if c == PAD then 254
    else if 9 <= c as int <= 13 || c == ' ' then 255
    else 256
  }

  lemma UpperAt(i: nat)
    requires i < 26
    ensures UPPER[i] as int == 65 + i
  {
  }

  lemma LowerAt(i: nat)
    requires i < 26
    ensures LOWER[i] as int == 97 + i
  {
  }

  lemma DigitAt(i: nat)
    requires i < 12
    ensures OTHERS[i] as int == if i < 10 then 48 + i else if i == 10 then 43 else 47
  {
  }

  lemma LetterAt(i: nat)
    requires i < 64
    ensures ALPHABET[i] as int == if i < 26 then 65 + i else if i < 52 then 97 + i - 26
                                  else if i < 62 then 48 + i - 52 else if i == 62 then 43 else 47
  {
    if i < 26 {
      UpperAt(i);
    } else if i < 52 {
      LowerAt(i - 26);
    } else {
      DigitAt(i - 52);
    }
  }

  lemma ThereAndBack(i: nat)
    requires i < 64
    ensures (i as bv8) as int == i
  {
  }

  lemma SymbolOfLetter(v: Code)
    ensures SymbolOf(Letter(v)) == Value(v)
  {
    LetterAt(v as int);
  }

  lemma LetterOfSymbol(c: char)
    requires SymbolOf(c).Value?
    ensures Letter(SymbolOf(c).value) == c
  {
    LetterAt(TableValue(c));
    ThereAndBack(TableValue(c));
  }

  // --- bytes and six-bit codes ---

  function ByteOr0(x: Bytes, i: nat): Byte { if i < |x| then x[i] else 0 }

  // Code number j of x followed by zeros.
  function CodeAt(x: Bytes, j: nat): Code {
    var t := j / 4 * 3;
    match j % 4
    case 0 => ByteOr0(x, t) >> 2
    case 1 => ((ByteOr0(x, t) & 0x03) << 4) | (ByteOr0(x, t + 1) >> 4)
    case 2 => ((ByteOr0(x, t + 1) & 0x0f) << 2) | (ByteOr0(x, t + 2) >> 6)
    case _ => ByteOr0(x, t + 2) & 0x3f
  }

  function Codes(x: Bytes): (q: seq<Code>) {
    seq((4 * |x| + 2) / 3, j requires j >= 0 => CodeAt(x, j))
  }

  // Byte number i of the codes q.
  function ByteAt(q: seq<Code>, i: nat): Byte
    requires i < |q| * 3 / 4
  {
    var t := i / 3 * 4;
    match i % 3
    case 0 => ((q[t] & 0x3f) << 2) | (q[t + 1] >> 4)
    case 1 => ((q[t + 1] & 0x0f) << 4) | (q[t + 2] >> 2)
    case _ => ((q[t + 2] & 0x03) << 6) | q[t + 3]
  }

  function Join(q: seq<Code>): Bytes {
    seq(|q| * 3 / 4, i requires 0 <= i < |q| * 3 / 4 => ByteAt(q, i))
  }

  // The bits of the last code that do not make a byte yet.
  function Spill(q: seq<Code>): Byte
    requires |q| % 4 != 0
  {
    var last: Byte := q[|q| - 1];
    match |q| % 4
    case 1 => last << 2
    case 2 => (last & 0x0f) << 4
    case _ => (last & 0x03) << 6
  }

  // --- the texts ---

  function Letters(q: seq<Code>): string {
    seq(|q|, j requires 0 <= j < |q| => Letter(q[j]))
  }

  function Pads(n: nat): string {
    if n % 4 == 2 then [PAD, PAD] else if n % 4 == 3 then [PAD] else ""
  }

  function Spelled(q: seq<Code>): string { Letters(q) + Pads(|q|) }

  // What the encoder sees of its input: it keeps the length in an int.
  function Seen(x: Bytes): Bytes {
    var n := Int32(|x|);
    if n < 0 then [0, 0] else x[..n]
  }

  // The codes before the first character that is neither a code nor white space, and what that is.
  datatype End = AtPad | AtInvalid | AtEnd

  function CodesIn(t: string): seq<Code> {
    if t == [] then []
    else
      match SymbolOf(t[0])
      case Value(v) => [v] + CodesIn(t[1..])
      case Space => CodesIn(t[1..])
      case _ => []
  }

  function EndOf(t: string): End {
    if t == [] then AtEnd
    else
      match SymbolOf(t[0])
      case Pad => AtPad
      case Invalid => AtInvalid
      case _ => EndOf(t[1..])
  }

  // A pad stands for one or two missing codes, and none may be missing without one.
  function Decoded(t: string): Option<Bytes> {
    var q := CodesIn(t);
    match EndOf(t)
    case AtPad => if |q| % 4 >= 2 then Some(Join(q)) else None
    case AtEnd => if |q| % 4 == 0 then Some(Join(q)) else None
    case AtInvalid => None
  }

  // --- the same, character by character ---

  predicate IsLetter(c: char) {
    'A' <= c <= 'Z' || 'a' <= c <= 'z' || '0' <= c <= '9' || c == '+' || c == '/'
  }

  predicate IsBlank(c: char) { c == ' ' || '\t' <= c <= '\r' }

  predicate AllLetters(s: string) { forall i | 0 <= i < |s| :: IsLetter(s[i]) }

  // n bytes make out: four characters for every three of them, all of them letters but for one or two
  // final '='.
  predicate Spells(out: string, n: nat) {
    var m := |out|;
    && m == 4 * ((n + 2) / 3)
    && match n % 3
       case 0 => AllLetters(out)
       case 1 => AllLetters(out[..m - 2]) && out[m - 2..] == "=="
       case _ => AllLetters(out[..m - 1]) && out[m - 1..] == "="
  }

  lemma SymbolKinds(c: char)
    ensures SymbolOf(c).Value? <==> IsLetter(c)
    ensures SymbolOf(c) == Space <==> IsBlank(c)
    ensures SymbolOf(c) == Pad <==> c == '='
  {
  }

  lemma LettersSpelled(q: seq<Code>)
    ensures AllLetters(Letters(q))
  {
    forall i | 0 <= i < |q| ensures IsLetter(Letters(q)[i]) {
      SymbolOfLetter(q[i]);
      SymbolKinds(Letter(q[i]));
    }
  }

  lemma CodesSpelled(x: Bytes)
    ensures Spells(Spelled(Codes(x)), |x|)
  {
    var q := Codes(x);
    var out := Spelled(q);
    LettersSpelled(q);
    SplitFirst(Letters(q), Pads(|q|), |q|);
    CodeCount(|x|);
    assert out[..|q|] == Letters(q) && out[|q|..] == Pads(|q|);
    if |x| % 3 == 0 { assert out == Letters(q); }
  }

  lemma CodeCount(n: nat)
    ensures var m := (4 * n + 2) / 3;
            && m % 4 == (if n % 3 == 0 then 0 else n % 3 + 1)
            && 4 * ((n + 2) / 3) == m + (if n % 3 == 0 then 0 else 3 - n % 3)
  {
    var g, r := n / 3, n % 3;
    assert 4 * n + 2 == 3 * (4 * g) + (4 * r + 2);
    assert (4 * n + 2) / 3 == 4 * g + (4 * r + 2) / 3;
    assert (n + 2) / 3 == g + (r + 2) / 3;
  }

  // --- encoding ---

  // The sextets of a group of three bytes.
  method Cut(i0: Byte, i1: Byte, i2: Byte, ghost y: Bytes, ghost k: nat)
    returns (o0: Code, o1: Code, o2: Code, o3: Code)
    requires i0 == ByteOr0(y, 3 * k) && i1 == ByteOr0(y, 3 * k + 1) && i2 == ByteOr0(y, 3 * k + 2)
    ensures o0 == CodeAt(y, 4 * k) && o1 == CodeAt(y, 4 * k + 1)
    ensures o2 == CodeAt(y, 4 * k + 2) && o3 == CodeAt(y, 4 * k + 3)
  {
    o0 := i0 >> 2;
    o1 := ((i0 & 0x03) << 4) + (i1 >> 4);
    o2 := ((i1 & 0x0f) << 2) + (i2 >> 6);
    o3 := i2 & 0x3f;
  }

  method Encode(x: Bytes) returns (out: string)
    ensures out == Spelled(Codes(Seen(x)))
    ensures |x| < 0x8000_0000 ==> Spells(out, |x|)
  {
    CodesSpelled(Seen(x));
    out := "";
    var srclength := Int32(|x|);
    var sidx := 0;
    ghost var y, k: nat := Seen(x), 0;
    while 2 < srclength
      invariant sidx == 3 * k
      invariant if Int32(|x|) < 0 then srclength < 0 && k == 0 else srclength >= 0 && sidx + srclength == |y|
      invariant out == Letters(First(y, 4 * k))
    {
      out := FullGroup(x[sidx], x[sidx + 1], x[sidx + 2], out, y, k);
      sidx := sidx + 3;
      srclength := srclength - 3;
      k := k + 1;
    }
    if srclength != 0 {
      out := LastGroup(x, sidx, srclength, out, y, k);
    } else {
      assert First(y, 4 * k) == Codes(y);
    }
  }

  // Three bytes, as four letters.
  method FullGroup(i0: Byte, i1: Byte, i2: Byte, out0: string, ghost y: Bytes, ghost k: nat) returns (out: string)
    requires i0 == ByteOr0(y, 3 * k) && i1 == ByteOr0(y, 3 * k + 1) && i2 == ByteOr0(y, 3 * k + 2)
    requires out0 == Letters(First(y, 4 * k))
    ensures out == Letters(First(y, 4 * (k + 1)))
  {
    var o0, o1, o2, o3 := Cut(i0, i1, i2, y, k);
    TwoLetters(y, 4 * k);
    TwoLetters(y, 4 * k + 2);
    out := out0 + [Letter(o0)];
    out := out + [Letter(o1)];
    assert out == Letters(First(y, 4 * k + 2));
    out := out + [Letter(o2)];
    out := out + [Letter(o3)];
  }

  // What is left, padded.
  method LastGroup(x: Bytes, sidx0: nat, srclength: int, out0: string, ghost y: Bytes, ghost k: nat)
    returns (out: string)
    requires srclength < 3 && srclength != 0 && sidx0 == 3 * k
    requires if srclength < 0 then y == [0, 0] && k == 0 else |y| == sidx0 + srclength && y <= x
    requires out0 == Letters(First(y, 4 * k))
    ensures out == Spelled(Codes(y))
  {
    var input: Bytes := [0, 0, 0];
    var i, sidx := 0, sidx0;
    while i < srclength
      invariant |input| == 3 && i >= 0 && sidx == sidx0 + i && (i == 0 || i <= srclength)
      invariant forall j | 0 <= j < 3 :: input[j] == if j < i then x[sidx0 + j] else 0
    {
      input := input[i := x[sidx]];
      i, sidx := i + 1, sidx + 1;
    }
    assert forall j | 0 <= j < 3 :: input[j] == ByteOr0(y, 3 * k + j);
    var o0, o1, o2, _ := Cut(input[0], input[1], input[2], y, k);
    LastLetters(y, k);
    out := out0 + [Letter(o0)];
    out := out + [Letter(o1)];
    if srclength == 1 {
      out := out + [PAD];
    } else {
      out := out + [Letter(o2)];
    }
    out := out + [PAD];
  }

  ghost function First(x: Bytes, n: nat): seq<Code> {
    seq(n, j requires j >= 0 => CodeAt(x, j))
  }

  lemma OneLetter(y: Bytes, n: nat)
    ensures Letters(First(y, n + 1)) == Letters(First(y, n)) + [Letter(CodeAt(y, n))]
  {
  }

  lemma TwoLetters(y: Bytes, n: nat)
    ensures Letters(First(y, n + 2)) == Letters(First(y, n)) + [Letter(CodeAt(y, n))] + [Letter(CodeAt(y, n + 1))]
  {
    OneLetter(y, n);
    OneLetter(y, n + 1);
  }

  // The last group of one byte.
  lemma OneByteLeft(y: Bytes, k: nat)
    requires |y| == 3 * k + 1
    ensures Spelled(Codes(y)) == Letters(First(y, 4 * k + 2)) + [PAD] + [PAD]
  {
    AllCodes(y, 4 * k + 2);
    PadsAt(4 * k + 2);
    Associate(Letters(First(y, 4 * k + 2)), [PAD], [PAD]);
  }

  // The last group of two bytes.
  lemma TwoBytesLeft(y: Bytes, k: nat)
    requires |y| == 3 * k + 2
    ensures Spelled(Codes(y)) == Letters(First(y, 4 * k + 3)) + [PAD]
  {
    AllCodes(y, 4 * k + 3);
    PadsAt(4 * k + 3);
  }

  lemma LastLetters(y: Bytes, k: nat)
    requires 0 < |y| - 3 * k < 3
    ensures var two := Letters(First(y, 4 * k)) + [Letter(CodeAt(y, 4 * k))] + [Letter(CodeAt(y, 4 * k + 1))];
            Spelled(Codes(y)) == if |y| == 3 * k + 1 then two + [PAD] + [PAD]
                                 else two + [Letter(CodeAt(y, 4 * k + 2))] + [PAD]
  {
    TwoLetters(y, 4 * k);
    if |y| == 3 * k + 1 {
      OneByteLeft(y, k);
    } else {
      OneLetter(y, 4 * k + 2);
      TwoBytesLeft(y, k);
    }
  }

  lemma AllCodes(y: Bytes, n: nat)
    requires n == (4 * |y| + 2) / 3
    ensures Codes(y) == First(y, n) && Spelled(Codes(y)) == Letters(First(y, n)) + Pads(n)
  {
  }

  lemma PadsAt(n: nat)
    ensures n % 4 == 2 ==> Pads(n) == [PAD] + [PAD]
    ensures n % 4 == 3 ==> Pads(n) == [PAD]
  {
  }

  // --- decoding ---

  // What out holds after the codes q: whole bytes, and the spill in a byte of its own.
  ghost function Spread(q: seq<Code>): Bytes {
    Join(q) + (if |q| % 4 == 0 then [] else [Spill(q)])
  }

  lemma OneMore<T>(q: seq<T>, v: T, more: seq<T>)
    ensures q + [v] + more == q + ([v] + more) && |q + [v]| <= |q + ([v] + more)|
  {
  }

  lemma OneEnd(t: string, q: seq<Code>, i: nat)
    requires i <= |t| && (i < |t| ==> SymbolOf(t[i]) in {Pad, Invalid})
    ensures q + CodesIn(t[i..]) == q
    ensures EndOf(t[i..]) == if i == |t| then AtEnd else if SymbolOf(t[i]) == Pad then AtPad else AtInvalid
  {
  }

  lemma SpreadCut(q: seq<Code>, out: Bytes)
    requires |out| == |q| * 3 / 4 && out == Spread(q)[..|out|]
    ensures out == Join(q)
  {
  }

  lemma ScanStep(t: string, i: nat)
    requires i < |t|
    ensures CodesIn(t[i..]) == match SymbolOf(t[i])
      case Value(v) => [v] + CodesIn(t[i + 1..])
      case Space => CodesIn(t[i + 1..])
      case _ => []
    ensures EndOf(t[i..]) == match SymbolOf(t[i])
      case Pad => AtPad
      case Invalid => AtInvalid
      case _ => EndOf(t[i + 1..])
  {
    assert t[i..][1..] == t[i + 1..];
  }

  // The switch of the decoding loop.
  method Absorb(value: Code, out0: Bytes, io0: nat, state0: nat, ghost q: seq<Code>)
    returns (out: Bytes, io: nat, state: nat)
    requires state0 == |q| % 4 && io0 == |q| * 3 / 4 && out0 == Spread(q)
    ensures state == |q + [value]| % 4 && io == |q + [value]| * 3 / 4 && out == Spread(q + [value])
  {
    Sizes(|q|);
    SpreadStep(q, value);
    var v: Byte := value;
    out, io, state := out0, io0, state0;
    match state {
      case 0 =>
        out := out + [v << 2];
        state := 1;
      case 1 =>
        out := out[io := out[io] | (v >> 4)];
        out := out + [(v & 0x0f) << 4];
        io := io + 1;
        state := 2;
      case 2 =>
        out := out[io := out[io] | (v >> 2)];
        out := out + [(v & 0x03) << 6];
        io := io + 1;
        state := 3;
      case _ =>
        out := out[io := out[io] | v];
        io := io + 1;
        state := 0;
    }
  }

  method Decode(t: string) returns (ok: bool, out: Bytes)
    requires |t| < TWO32 && |CodesIn(t)| * 3 / 4 < TWO31
    ensures if ok then Decoded(t) == Some(out) else Decoded(t) == None && out == Spread(CodesIn(t))
  {
    var io, state, ch := 0, 0, 0 as char;
    var ii := 0;
    out := [];
    ghost var q: seq<Code> := [];
    while ii < |t|
      invariant 0 <= ii <= |t| && ch != PAD
      invariant q + CodesIn(t[ii..]) == CodesIn(t) && EndOf(t[ii..]) == EndOf(t)
      invariant state == |q| % 4 && io == |q| * 3 / 4 < TWO31
      invariant out == Spread(q)
    {
      ch := t[ii];
      var symbol := SymbolOf(ch);
      ScanStep(t, ii);
      if symbol == Space {
        ii := ii + 1;
        continue;
      }
      if symbol == Pad {
        break;
      }
      if symbol == Invalid {
        OneEnd(t, q, ii);
        assert EndOf(t) == AtInvalid && CodesIn(t) == q;
        return false, out;
      }
      OneMore(q, symbol.value, CodesIn(t[ii + 1..]));
      out, io, state := Absorb(symbol.value, out, io, state, q);
      q := q + [symbol.value];
      ii := ii + 1;
    }
    OneEnd(t, q, ii);
    if ch == PAD {
      if state == 0 || state == 1 {
        return false, out;
      }
      if out[io] != 0 {
        out := out[io := 0];
      }
      out := out[..io];
    } else if state != 0 {
      return false, out;
    }
    SpreadCut(q, out);
    ok := true;
  }

  lemma ByteAtPrefix(q: seq<Code>, v: Code, i: nat)
    requires i < |q| * 3 / 4
    ensures i < |q + [v]| * 3 / 4 && ByteAt(q + [v], i) == ByteAt(q, i)
  {
    assert (q + [v])[..|q|] == q;
  }

  lemma JoinMore(q: seq<Code>, v: Code)
    ensures Join(q + [v]) == Join(q) + if |q| % 4 == 0 then [] else [ByteAt(q + [v], |q| * 3 / 4)]
  {
    forall i: nat | i < |q| * 3 / 4 ensures Join(q + [v])[i] == Join(q)[i] {
      ByteAtPrefix(q, v, i);
    }
  }

  // What one more code does to the bytes.
  lemma SpreadZero(q: seq<Code>, v: Code)
    requires |q| % 4 == 0
    ensures var b: Byte := v; Spread(q + [v]) == Spread(q) + [b << 2]
  {
    SpillLast(q, v);
    SpreadFirst(q, v);
  }

  lemma SpreadOne(q: seq<Code>, v: Code)
    requires |q| % 4 == 1
    ensures var b: Byte, out, io := v, Spread(q), |q| * 3 / 4;
            |out| == io + 1 && Spread(q + [v]) == out[io := out[io] | (b >> 4)] + [(b & 0x0f) << 4]
  {
    SpillLast(q, v);
    SpreadNext(q, v);
    LastByte(q, v);
  }

  lemma SpreadTwo(q: seq<Code>, v: Code)
    requires |q| % 4 == 2
    ensures var b: Byte, out, io := v, Spread(q), |q| * 3 / 4;
            |out| == io + 1 && Spread(q + [v]) == out[io := out[io] | (b >> 2)] + [(b & 0x03) << 6]
  {
    SpillLast(q, v);
    SpreadNext(q, v);
    LastByte(q, v);
  }

  lemma SpreadThree(q: seq<Code>, v: Code)
    requires |q| % 4 == 3
    ensures var b: Byte, out, io := v, Spread(q), |q| * 3 / 4;
            |out| == io + 1 && Spread(q + [v]) == out[io := out[io] | b]
  {
    SpreadNext(q, v);
    LastByte(q, v);
  }

  lemma SpreadStep(q: seq<Code>, v: Code)
    ensures |Spread(q)| == |q| * 3 / 4 + if |q| % 4 == 0 then 0 else 1
    ensures var b: Byte, out, io := v, Spread(q), |q| * 3 / 4;
            Spread(q + [v]) == match |q| % 4
              case 0 => out + [b << 2]
              case 1 => out[io := out[io] | (b >> 4)] + [(b & 0x0f) << 4]
              case 2 => out[io := out[io] | (b >> 2)] + [(b & 0x03) << 6]
              case _ => out[io := out[io] | b]
  {
    match |q| % 4 {
      case 0 => SpreadZero(q, v);
      case 1 => SpreadOne(q, v);
      case 2 => SpreadTwo(q, v);
      case _ => SpreadThree(q, v);
    }
  }

  lemma SpillLast(q: seq<Code>, v: Code)
    ensures var b: Byte := v;
            (|q| + 1) % 4 != 0 ==>
              Spill(q + [v]) == match |q| % 4 case 0 => b << 2 case 1 => (b & 0x0f) << 4 case _ => (b & 0x03) << 6
  {
    Sizes(|q|);
    assert (q + [v])[|q|] == v;
  }

  lemma Thirds(n: nat)
    ensures n * 3 / 4 == n / 4 * 3 + (if n % 4 == 0 then 0 else n % 4 - 1)
  {
    var g, r := n / 4, n % 4;
    assert n * 3 == 4 * (3 * g) + 3 * r;
    assert n * 3 / 4 == 3 * g + 3 * r / 4;
  }

  lemma Sizes(n: nat)
    ensures (n + 1) % 4 == (if n % 4 == 3 then 0 else n % 4 + 1)
    ensures (n + 1) * 3 / 4 == n * 3 / 4 + if n % 4 == 0 then 0 else 1
  {
    assert (n + 1) / 4 == n / 4 + if n % 4 == 3 then 1 else 0;
    Thirds(n);
    Thirds(n + 1);
  }

  lemma SpreadFirst(q: seq<Code>, v: Code)
    requires |q| % 4 == 0
    ensures Spread(q + [v]) == Spread(q) + [Spill(q + [v])]
  {
    JoinMore(q, v);
    assert Join(q) + [] == Join(q);
  }

  lemma SpreadNext(q: seq<Code>, v: Code)
    requires |q| % 4 != 0
    ensures var io, q1 := |q| * 3 / 4, q + [v];
            && |Spread(q)| == io + 1 && Spread(q)[io] == Spill(q)
            && Spread(q1) == Spread(q)[io := ByteAt(q1, io)] + if |q| % 4 == 3 then [] else [Spill(q1)]
  {
    var b := ByteAt(q + [v], |q| * 3 / 4);
    Sizes(|q|);
    JoinMore(q, v);
    Replaced(Join(q), Spill(q), b);
    assert Join(q) + [b] + [] == Join(q) + [b];
  }

  lemma Replaced(out: Bytes, a: Byte, b: Byte)
    ensures (out + [a])[|out| := b] == out + [b]
  {
  }

  lemma LastByte(q: seq<Code>, v: Code)
    requires |q| % 4 != 0
    ensures ByteAt(q + [v], |q| * 3 / 4) == match |q| % 4
              case 1 => Spill(q) | (v >> 4)
              case 2 => Spill(q) | (v >> 2)
              case _ => Spill(q) | v
  {
    var q1, g := q + [v], |q| / 4;
    Thirds(|q|);
    Append(q, v);
    match |q| % 4 {
      case 1 => FirstByte(q1, g);
      case 2 => SecondByte(q1, g);
      case _ => ThirdByte(q1, g);
    }
  }

  lemma Append(q: seq<Code>, v: Code)
    requires q != []
    ensures (q + [v])[|q|] == v && (q + [v])[|q| - 1] == q[|q| - 1]
  {
  }

  // --- groups of three bytes and four codes ---

  lemma FirstByte(q: seq<Code>, g: nat)
    requires 4 * g + 1 < |q|
    ensures ByteAt(q, 3 * g) == ((q[4 * g] & 0x3f) << 2) | (q[4 * g + 1] >> 4)
  {
  }

  lemma SecondByte(q: seq<Code>, g: nat)
    requires 4 * g + 2 < |q|
    ensures ByteAt(q, 3 * g + 1) == ((q[4 * g + 1] & 0x0f) << 4) | (q[4 * g + 2] >> 2)
  {
  }

  lemma ThirdByte(q: seq<Code>, g: nat)
    requires 4 * g + 3 < |q|
    ensures ByteAt(q, 3 * g + 2) == ((q[4 * g + 2] & 0x03) << 6) | q[4 * g + 3]
  {
  }
}

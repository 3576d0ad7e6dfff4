/** base64 as in section 4 of RFC 4648, with padding: the encoding of every payload and of every published message. */
module Base64 {
  import opened Common

  /** The alphabet of table 1. */
  function Symbol(n: int): Octet
    requires 0 <= n < 64
  {
    if n < 26 then (65 + n) as char
    else if n < 52 then (71 + n) as char
    else if n < 62 then (n - 4) as char
    else if n == 62 then '+'
    else '/'
  }

  function ValueOf(c: Octet): Option<int> {
    if 'A' <= c <= 'Z' then Some(c as int - 65)
    else if 'a' <= c <= 'z' then Some(c as int - 71)
    else if '0' <= c <= '9' then Some(c as int + 4)
    else if c == '+' then Some(62)
    else if c == '/' then Some(63)
    else None
  }

  predicate InAlphabet(c: char) {
    'A' <= c <= 'Z' || 'a' <= c <= 'z' || '0' <= c <= '9' || c == '+' || c == '/' || c == '='
  }

  function First(a: int): (n: int)
    requires 0 <= a < 256
    ensures 0 <= n < 64
  {
    a / 4
  }

  function Second(a: int, b: int): (n: int)
    requires 0 <= a < 256 && 0 <= b < 256
    ensures 0 <= n < 64
  {
    a % 4 * 16 + b / 16
  }

  function Third(b: int, c: int): (n: int)
    requires 0 <= b < 256 && 0 <= c < 256
    ensures 0 <= n < 64
  {
    b % 16 * 4 + c / 64
  }

  function Fourth(c: int): (n: int)
    requires 0 <= c < 256
    ensures 0 <= n < 64
  {
    c % 64
  }

  /** The quantum of three bytes, and the padded quanta of one and two. */
  function Group(a: Octet, b: Octet, c: Octet): Bytes {
    [Symbol(First(a as int)), Symbol(Second(a as int, b as int)), Symbol(Third(b as int, c as int)), Symbol(Fourth(c as int))]
  }

  function LastOne(a: Octet): Bytes {
    [Symbol(First(a as int)), Symbol(Second(a as int, 0)), '=', '=']
  }

  function LastTwo(a: Octet, b: Octet): Bytes {
    [Symbol(First(a as int)), Symbol(Second(a as int, b as int)), Symbol(Third(b as int, 0)), '=']
  }

  function Encode(b: Bytes): Bytes {
    if |b| == 0 then []
    else if |b| == 1 then LastOne(b[0])
    else if |b| == 2 then LastTwo(b[0], b[1])
    else Group(b[0], b[1], b[2]) + Encode(b[3..])
  }

  /** The three bytes of four sextets. */
  function Bytes3(w: int, x: int, y: int, z: int): Bytes
    requires 0 <= w < 64 && 0 <= x < 64 && 0 <= y < 64 && 0 <= z < 64
  {
    [(w * 4 + x / 16) as char, (x % 16 * 16 + y / 4) as char, (y % 4 * 64 + z) as char]
  }

  /** A full quantum. */
  function DecodeQuad(s: Bytes): Option<Bytes>
    requires |s| >= 4
  {
    match (ValueOf(s[0]), ValueOf(s[1]), ValueOf(s[2]), ValueOf(s[3]))
    case (Some(w), Some(x), Some(y), Some(z)) => Some(Bytes3(w, x, y, z))
    case _ => None
  }

  /** The final quantum, which may be padded. */
  function DecodeLast(s: Bytes): Option<Bytes>
    requires |s| == 4
  {
    if s[3] != '=' then DecodeQuad(s)
    else if s[2] != '=' then
      match (ValueOf(s[0]), ValueOf(s[1]), ValueOf(s[2]))
      case (Some(w), Some(x), Some(y)) => Some(Bytes3(w, x, y, 0)[..2])
      case _ => None
    else
      match (ValueOf(s[0]), ValueOf(s[1]))
      case (Some(w), Some(x)) => Some(Bytes3(w, x, 0, 0)[..1])
      case _ => None
  }

  function Decode(s: Bytes): Option<Bytes> {
    if |s| == 0 then Some([])
    else if |s| < 4 then None
    else if |s| == 4 then DecodeLast(s)
    else
      match (DecodeQuad(s[..4]), Decode(s[4..]))
      case (Some(a), Some(rest)) => Some(a + rest)
      case _ => None
  }

  lemma SymbolsDecode(n: int)
    requires 0 <= n < 64
    ensures ValueOf(Symbol(n)) == Some(n) && Symbol(n) != '=' && InAlphabet(Symbol(n))
  {
  }

  lemma FirstByte(a: int, b: int)
    requires 0 <= a < 256 && 0 <= b < 256
    ensures First(a) * 4 + Second(a, b) / 16 == a
  {
    assert Second(a, b) / 16 == a % 4;
  }

  lemma SecondByte(a: int, b: int, c: int)
    requires 0 <= a < 256 && 0 <= b < 256 && 0 <= c < 256
    ensures Second(a, b) % 16 * 16 + Third(b, c) / 4 == b
  {
    assert Second(a, b) % 16 == b / 16;
    assert Third(b, c) / 4 == b % 16;
  }

  lemma ThirdByte(b: int, c: int)
    requires 0 <= b < 256 && 0 <= c < 256
    ensures Third(b, c) % 4 * 64 + Fourth(c) == c
  {
    assert Third(b, c) % 4 == c / 64;
  }

  /** Splitting three bytes into sextets loses nothing. */
  lemma SextetsRejoin(a: int, b: int, c: int)
    requires 0 <= a < 256 && 0 <= b < 256 && 0 <= c < 256
    ensures Bytes3(First(a), Second(a, b), Third(b, c), Fourth(c)) == [a as char, b as char, c as char]
  {
    hide First, Second, Third, Fourth;
    FirstByte(a, b);
    SecondByte(a, b, c);
    ThirdByte(b, c);
  }

  lemma QuadDecodes(w: int, x: int, y: int, z: int)
    requires 0 <= w < 64 && 0 <= x < 64 && 0 <= y < 64 && 0 <= z < 64
    ensures DecodeQuad([Symbol(w), Symbol(x), Symbol(y), Symbol(z)]) == Some(Bytes3(w, x, y, z))
    ensures DecodeLast([Symbol(w), Symbol(x), Symbol(y), '=']) == Some(Bytes3(w, x, y, 0)[..2])
    ensures DecodeLast([Symbol(w), Symbol(x), '=', '=']) == Some(Bytes3(w, x, 0, 0)[..1])
    ensures Symbol(z) != '='
  {
    SymbolsDecode(w);
    SymbolsDecode(x);
    SymbolsDecode(y);
    SymbolsDecode(z);
    hide Bytes3, Symbol, ValueOf;
  }

  lemma GroupDecodes(a: Octet, b: Octet, c: Octet)
    ensures DecodeQuad(Group(a, b, c)) == Some([a, b, c]) && Group(a, b, c)[3] != '='
  {
    hide First, Second, Third, Fourth, Bytes3, Symbol, DecodeQuad, DecodeLast;
    SextetsRejoin(a as int, b as int, c as int);
    QuadDecodes(First(a as int), Second(a as int, b as int), Third(b as int, c as int), Fourth(c as int));
  }

  lemma ZerosRejoin(a: int, b: int)
    requires 0 <= a < 256 && 0 <= b < 256
    ensures Bytes3(First(a), Second(a, b), Third(b, 0), 0) == [a as char, b as char, 0 as char]
    ensures Bytes3(First(a), Second(a, 0), 0, 0) == [a as char, 0 as char, 0 as char]
  {
    SextetsRejoin(a, b, 0);
    SextetsRejoin(a, 0, 0);
    assert Third(0, 0) == 0 && Fourth(0) == 0;
    hide First, Second, Third, Fourth, Bytes3;
  }

  lemma OneDecodes(a: Octet)
    ensures DecodeLast(LastOne(a)) == Some([a])
  {
    hide First, Second, Third, Fourth, Bytes3, Symbol, DecodeQuad, DecodeLast;
    ZerosRejoin(a as int, 0);
    QuadDecodes(First(a as int), Second(a as int, 0), 0, 0);
    assert [a, 0 as char, 0 as char][..1] == [a];
  }

  lemma TwoDecode(a: Octet, b: Octet)
    ensures DecodeLast(LastTwo(a, b)) == Some([a, b])
  {
    hide First, Second, Third, Fourth, Bytes3, Symbol, DecodeQuad, DecodeLast;
    ZerosRejoin(a as int, b as int);
    QuadDecodes(First(a as int), Second(a as int, b as int), Third(b as int, 0), 0);
    assert [a, b, 0 as char][..2] == [a, b];
  }

  lemma FullQuantumFirst(group: Bytes, rest: Bytes, a: Bytes, tail: Bytes)
    requires |group| == 4 && group[3] != '=' && DecodeQuad(group) == Some(a) && Decode(rest) == Some(tail)
    requires |rest| == 0 || |rest| >= 4
    ensures Decode(group + rest) == Some(a + tail)
  {
    hide DecodeQuad;
    assert (group + rest)[..4] == group && (group + rest)[4..] == rest;
    if |rest| == 0 {
      assert group + rest == group && a + tail == a;
    }
  }

  /** Decoding gives back every byte string. */
  lemma {:induction false} RoundTrip(b: Bytes)
    ensures Decode(Encode(b)) == Some(b)
  {
    hide Group, LastOne, LastTwo, DecodeQuad, DecodeLast;
    EncodedShape(b);
    if |b| == 1 {
      OneDecodes(b[0]);
      assert [b[0]] == b;
    } else if |b| == 2 {
      TwoDecode(b[0], b[1]);
      assert [b[0], b[1]] == b;
    } else if |b| >= 3 {
      RoundTrip(b[3..]);
      EncodedShape(b[3..]);
      GroupDecodes(b[0], b[1], b[2]);
      GroupInAlphabet(b[0], b[1], b[2]);
      assert Encode(b) == Group(b[0], b[1], b[2]) + Encode(b[3..]);
      hide Encode, Decode;
      FullQuantumFirst(Group(b[0], b[1], b[2]), Encode(b[3..]), [b[0], b[1], b[2]], b[3..]);
      assert b == [b[0], b[1], b[2]] + b[3..];
    }
  }

  predicate AllInAlphabet(s: Bytes) {
    forall i :: 0 <= i < |s| ==> InAlphabet(s[i])
  }

  lemma GroupInAlphabet(a: Octet, b: Octet, c: Octet)
    ensures |Group(a, b, c)| == 4 && AllInAlphabet(Group(a, b, c))
  {
    SymbolsDecode(First(a as int));
    SymbolsDecode(Second(a as int, b as int));
    SymbolsDecode(Third(b as int, c as int));
    SymbolsDecode(Fourth(c as int));
    hide First, Second, Third, Fourth, Symbol, InAlphabet;
  }

  lemma LastInAlphabet(a: Octet, b: Octet)
    ensures |LastOne(a)| == 4 && AllInAlphabet(LastOne(a))
    ensures |LastTwo(a, b)| == 4 && AllInAlphabet(LastTwo(a, b))
  {
    SymbolsDecode(First(a as int));
    SymbolsDecode(Second(a as int, b as int));
    SymbolsDecode(Second(a as int, 0));
    SymbolsDecode(Third(b as int, 0));
    assert InAlphabet('=');
    hide First, Second, Third, Symbol, InAlphabet;
  }

  /** Four symbols for every three bytes begun, all of them from the alphabet. */
  lemma {:induction false} EncodedShape(b: Bytes)
    ensures |Encode(b)| == (|b| + 2) / 3 * 4
    ensures AllInAlphabet(Encode(b))
  {
    hide Group, LastOne, LastTwo, InAlphabet;
    if |b| == 1 || |b| == 2 {
      LastInAlphabet(b[0], if |b| == 2 then b[1] else b[0]);
    } else if |b| >= 3 {
      EncodedShape(b[3..]);
      GroupInAlphabet(b[0], b[1], b[2]);
      AppendInAlphabet(Group(b[0], b[1], b[2]), Encode(b[3..]));
    }
  }

  lemma AppendInAlphabet(a: Bytes, b: Bytes)
    requires AllInAlphabet(a) && AllInAlphabet(b)
    ensures AllInAlphabet(a + b)
  {
    hide InAlphabet;
  }

  lemma VectorQuanta()
    ensures Group('f', 'o', 'o') == "Zm9v" && Group('b', 'a', 'r') == "YmFy"
    ensures LastOne('f') == "Zg==" && LastOne('b') == "Yg==" && LastTwo('f', 'o') == "Zm8=" && LastTwo('b', 'a') == "YmE="
  {
  }

  /** The test vectors of section 10 of RFC 4648. */
  lemma TestVectors()
    ensures Encode("f") == "Zg==" && Encode("fo") == "Zm8=" && Encode("foo") == "Zm9v"
    ensures Encode("foob") == "Zm9vYg==" && Encode("fooba") == "Zm9vYmE=" && Encode("foobar") == "Zm9vYmFy"
  {
    hide Group, LastOne, LastTwo;
    VectorQuanta();
    Prefixed(['b']);
    Prefixed(['b', 'a']);
    Prefixed(['b', 'a', 'r']);
    assert Encode(['b']) == LastOne('b') && Encode(['b', 'a']) == LastTwo('b', 'a');
    Prefixed([]);
    assert ['f', 'o', 'o'] + [] == "foo";
    assert "Zm9v" + [] == "Zm9v";
    OneGroup('b', 'a', 'r');
  }

  lemma OneGroup(a: Octet, b: Octet, c: Octet)
    ensures Encode([a, b, c]) == Group(a, b, c)
  {
    hide Group;
    assert [a, b, c][3..] == [];
    assert Group(a, b, c) + [] == Group(a, b, c);
  }

  lemma Prefixed(b: Bytes)
    ensures Encode(['f', 'o', 'o'] + b) == Group('f', 'o', 'o') + Encode(b)
  {
    hide Group;
    assert (['f', 'o', 'o'] + b)[3..] == b;
  }
}

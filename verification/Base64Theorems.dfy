/** What the encoder and the decoder of RFC 4648 compute, symbol by symbol and bit by bit. */
module Base64Theorems {
  import opened Common
  import opened Base64

  /** Table 1 of RFC 4648, in three rows and the two last symbols. */
  const TABLE := "ABCDEFGHIJKLMNOPQRSTUVWXYZ" + "abcdefghijklmnopqrstuvwxyz" + "0123456789" + "+/"

  lemma TableUpper(n: int)
    requires 0 <= n < 26
    ensures "ABCDEFGHIJKLMNOPQRSTUVWXYZ"[n] == (65 + n) as char
  {
  }

  lemma TableLower(n: int)
    requires 0 <= n < 26
    ensures "abcdefghijklmnopqrstuvwxyz"[n] == (97 + n) as char
  {
  }

  lemma TableDigits(n: int)
    requires 0 <= n < 10
    ensures "0123456789"[n] == (48 + n) as char
  {
  }

  /** The symbols are those of the table, each at its place. */
  lemma SymbolIsTable(n: int)
    requires 0 <= n < 64
    ensures |TABLE| == 64 && Symbol(n) == TABLE[n]
  {
    var upper, lower, digits, rest := "ABCDEFGHIJKLMNOPQRSTUVWXYZ", "abcdefghijklmnopqrstuvwxyz", "0123456789", "+/";
    assert |upper| == 26 && |lower| == 26 && |digits| == 10;
    if n < 26 {
      TableUpper(n);
    } else if n < 52 {
      TableLower(n - 26);
    } else if n < 62 {
      TableDigits(n - 52);
    }
  }

  /** Its places are what the decoder reads: no symbol has two, and nothing else has one. */
  lemma ValueIsPlace(c: Octet, n: int)
    ensures |TABLE| == 64
    ensures ValueOf(c) == Some(n) <==> 0 <= n < 64 && TABLE[n] == c
  {
    SymbolIsTable(0);
    if 0 <= n < 64 {
      SymbolIsTable(n);
      SymbolsDecode(n);
    }
    hide TABLE;
    if ValueOf(c) == Some(n) {
      assert 0 <= n < 64 && Symbol(n) == c;
    }
  }

  // ---- the encoder ----

  /** Read as a number in base 64 by the places of its symbols, s is v. */
  ghost predicate Reads(s: Bytes, v: int) {
    if s == [] then v == 0
    else 0 <= v && |TABLE| == 64 && TABLE[v % 64] == s[|s| - 1] && Reads(s[..|s| - 1], v / 64)
  }

  lemma ReadsOneMore(s: Bytes, v: int, n: int)
    requires Reads(s, v) && 0 <= v && 0 <= n < 64
    ensures Reads(s + [Symbol(n)], v * 64 + n)
  {
    SymbolIsTable(n);
    var all := s + [Symbol(n)];
    assert all[..|all| - 1] == s;
    assert (v * 64 + n) % 64 == n && (v * 64 + n) / 64 == v;
    hide TABLE, Symbol;
  }

  lemma ReadsTwo(w: int, x: int)
    requires 0 <= w < 64 && 0 <= x < 64
    ensures Reads([Symbol(w), Symbol(x)], w * 64 + x)
  {
    var none: Bytes := [];
    assert Reads(none, 0);
    hide Reads, Symbol;
    ReadsOneMore(none, 0, w);
    assert none + [Symbol(w)] == [Symbol(w)];
    ReadsOneMore([Symbol(w)], w, x);
    assert [Symbol(w)] + [Symbol(x)] == [Symbol(w), Symbol(x)];
  }

  lemma ReadsThree(w: int, x: int, y: int)
    requires 0 <= w < 64 && 0 <= x < 64 && 0 <= y < 64
    ensures Reads([Symbol(w), Symbol(x), Symbol(y)], (w * 64 + x) * 64 + y)
  {
    hide Reads, Symbol;
    ReadsTwo(w, x);
    ReadsOneMore([Symbol(w), Symbol(x)], w * 64 + x, y);
    assert [Symbol(w), Symbol(x)] + [Symbol(y)] == [Symbol(w), Symbol(x), Symbol(y)];
  }

  lemma ReadsFour(w: int, x: int, y: int, z: int)
    requires 0 <= w < 64 && 0 <= x < 64 && 0 <= y < 64 && 0 <= z < 64
    ensures Reads([Symbol(w), Symbol(x), Symbol(y), Symbol(z)], ((w * 64 + x) * 64 + y) * 64 + z)
  {
    hide Reads, Symbol;
    ReadsThree(w, x, y);
    ReadsOneMore([Symbol(w), Symbol(x), Symbol(y)], (w * 64 + x) * 64 + y, z);
    assert [Symbol(w), Symbol(x), Symbol(y)] + [Symbol(z)] == [Symbol(w), Symbol(x), Symbol(y), Symbol(z)];
  }

  lemma SextetsAddUp(a: int, b: int, c: int)
    requires 0 <= a < 256 && 0 <= b < 256 && 0 <= c < 256
    ensures First(a) * 64 + Second(a, 0) == a * 16
    ensures (First(a) * 64 + Second(a, b)) * 64 + Third(b, 0) == (a * 256 + b) * 4
    ensures ((First(a) * 64 + Second(a, b)) * 64 + Third(b, c)) * 64 + Fourth(c) == (a * 256 + b) * 256 + c
  {
  }

  lemma GroupReads(a: Octet, b: Octet, c: Octet)
    ensures Reads(Group(a, b, c), (a as int * 256 + b as int) * 256 + c as int)
  {
    var x, y, z := a as int, b as int, c as int;
    SextetsAddUp(x, y, z);
    hide Reads, Symbol, First, Second, Third, Fourth;
    ReadsFour(First(x), Second(x, y), Third(y, z), Fourth(z));
  }

  /** A padded quantum: its symbols are read as v, and the other places hold the padding. */
  ghost predicate Padded(e: Bytes, symbols: nat, v: int) {
    && |e| == 4 && symbols <= 4 && Reads(e[..symbols], v)
    && forall j :: symbols <= j < 4 ==> e[j] == '='
  }

  lemma LastTwoReads(a: Octet, b: Octet)
    ensures Padded(LastTwo(a, b), 3, (a as int * 256 + b as int) * 4)
  {
    var x, y := a as int, b as int;
    SextetsAddUp(x, y, 0);
    var w, s, z := First(x), Second(x, y), Third(y, 0);
    assert LastTwo(a, b) == [Symbol(w), Symbol(s), Symbol(z), '='];
    ReadsThree(w, s, z);
    hide Reads, Symbol, First, Second, Third, LastTwo;
    TwoPadded(w, s, z);
  }

  lemma TwoPadded(w: int, x: int, y: int)
    requires 0 <= w < 64 && 0 <= x < 64 && 0 <= y < 64
    requires Reads([Symbol(w), Symbol(x), Symbol(y)], (w * 64 + x) * 64 + y)
    ensures Padded([Symbol(w), Symbol(x), Symbol(y), '='], 3, (w * 64 + x) * 64 + y)
  {
    hide Reads, Symbol;
    assert [Symbol(w), Symbol(x), Symbol(y), '='][..3] == [Symbol(w), Symbol(x), Symbol(y)];
  }

  lemma LastOneIs(a: Octet)
    ensures LastOne(a) == [Symbol(First(a as int)), Symbol(Second(a as int, 0)), '=', '=']
  {
    hide Symbol, First, Second;
  }

  lemma LastOneReads(a: Octet)
    ensures Padded(LastOne(a), 2, a as int * 16)
  {
    hide *;
    LastOneIs(a);
    SextetsAddUp(a as int, 0, 0);
    ReadsTwo(First(a as int), Second(a as int, 0));
    OnePadded(First(a as int), Second(a as int, 0));
  }

  lemma OnePadded(w: int, x: int)
    requires 0 <= w < 64 && 0 <= x < 64 && Reads([Symbol(w), Symbol(x)], w * 64 + x)
    ensures Padded([Symbol(w), Symbol(x), '=', '='], 2, w * 64 + x)
  {
    hide Reads, Symbol;
    assert [Symbol(w), Symbol(x), '=', '='][..2] == [Symbol(w), Symbol(x)];
  }

  /** The three bytes at 3i as a number. */
  function BytesAt(b: Bytes, i: nat): int
    requires 3 * i + 3 <= |b|
  {
    (b[3 * i] as int * 256 + b[3 * i + 1] as int) * 256 + b[3 * i + 2] as int
  }

  /** The last quantum when one or two bytes are left over: zero bits follow them. */
  ghost predicate EndsRight(b: Bytes, e: Bytes) {
    && (|b| % 3 == 1 ==> |e| >= 4 && Padded(e[|e| - 4..], 2, b[|b| - 1] as int * 16))
    && (|b| % 3 == 2 ==> |e| >= 4 && Padded(e[|e| - 4..], 3, (b[|b| - 2] as int * 256 + b[|b| - 1] as int) * 4))
  }

  lemma TailEndsRight(b: Bytes, group: Bytes, e: Bytes)
    requires |b| >= 3 && |group| == 4 && EndsRight(b[3..], e)
    ensures EndsRight(b, group + e)
  {
    hide Padded;
    if |e| >= 4 {
      assert (group + e)[|group + e| - 4..] == e[|e| - 4..];
    }
  }

  lemma ShortEndsRight(b: Bytes, e: Bytes)
    requires (|b| == 1 && Padded(e, 2, b[0] as int * 16)) || (|b| == 2 && Padded(e, 3, (b[0] as int * 256 + b[1] as int) * 4))
    ensures EndsRight(b, e)
  {
    assert e[0..] == e;
    assert |e| == 4;
    hide Padded;
  }

  /** The quanta of full triples. */
  ghost predicate QuantaRight(b: Bytes, e: Bytes) {
    forall i: nat :: 3 * i + 3 <= |b| ==> 4 * i + 4 <= |e| && Reads(e[4 * i..4 * i + 4], BytesAt(b, i))
  }

  lemma TailQuantaRight(b: Bytes, group: Bytes, e: Bytes)
    requires |b| >= 3 && |group| == 4 && Reads(group, BytesAt(b, 0)) && QuantaRight(b[3..], e)
    ensures QuantaRight(b, group + e)
  {
    hide Reads;
    forall i: nat | 3 * i + 3 <= |b|
      ensures 4 * i + 4 <= |group + e| && Reads((group + e)[4 * i..4 * i + 4], BytesAt(b, i))
    {
      if i == 0 {
        assert (group + e)[..4] == group;
      } else {
        var j := i - 1;
        assert 3 * j + 3 <= |b[3..]| && BytesAt(b, i) == BytesAt(b[3..], j);
        assert (group + e)[4 * i..4 * i + 4] == e[4 * j..4 * j + 4];
      }
    }
  }

  lemma ShortIs(b: Bytes)
    requires |b| < 3
    ensures Encode(b) == if b == [] then [] else if |b| == 1 then LastOne(b[0]) else LastTwo(b[0], b[1])
  {
    hide LastOne, LastTwo;
  }

  lemma EmptyEndsRight(b: Bytes, e: Bytes)
    requires b == []
    ensures EndsRight(b, e)
  {
  }

  lemma ShortEncodes(b: Bytes)
    requires |b| < 3
    ensures EndsRight(b, Encode(b))
  {
    hide *;
    ShortIs(b);
    if b == [] {
      EmptyEndsRight(b, Encode(b));
    } else if |b| == 1 {
      LastOneReads(b[0]);
      ShortEndsRight(b, LastOne(b[0]));
    } else {
      LastTwoReads(b[0], b[1]);
      ShortEndsRight(b, LastTwo(b[0], b[1]));
    }
  }

  lemma LongIs(b: Bytes)
    requires |b| >= 3
    ensures Encode(b) == Group(b[0], b[1], b[2]) + Encode(b[3..]) && |Group(b[0], b[1], b[2])| == 4
  {
    hide Symbol, First, Second, Third, Fourth;
  }

  lemma NoQuanta(b: Bytes, e: Bytes)
    requires |b| < 3
    ensures QuantaRight(b, e)
  {
  }

  /**
   What the encoder computes, position by position: the four symbols at 4i, read in base 64 by their places in the table,
   are the three bytes at 3i, read in base 256; one or two bytes left over are followed by zero bits, and the
   places left in their quantum hold the padding.
   */
  lemma {:induction false} EncodeByPosition(b: Bytes)
    ensures |Encode(b)| == (|b| + 2) / 3 * 4 && QuantaRight(b, Encode(b)) && EndsRight(b, Encode(b))
  {
    hide *;
    EncodedShape(b);
    if |b| < 3 {
      ShortEncodes(b);
      NoQuanta(b, Encode(b));
    } else {
      var group, rest := Group(b[0], b[1], b[2]), Encode(b[3..]);
      LongIs(b);
      EncodeByPosition(b[3..]);
      GroupReads(b[0], b[1], b[2]);
      FirstBytes(b);
      TailEndsRight(b, group, rest);
      TailQuantaRight(b, group, rest);
    }
  }

  lemma FirstBytes(b: Bytes)
    requires |b| >= 3
    ensures BytesAt(b, 0) == (b[0] as int * 256 + b[1] as int) * 256 + b[2] as int
  {
  }

  // ---- the decoder ----

  /** The number that the decoder makes of symbols. */
  function NumberOf(s: Bytes): (n: Option<int>)
    ensures n.Some? ==> 0 <= n.value
  {
    if s == [] then Some(0)
    else
      match (NumberOf(s[..|s| - 1]), ValueOf(s[|s| - 1]))
      case (Some(n), Some(d)) => Some(n * 64 + d)
      case _ => None
  }

  lemma NumberStep(s: Bytes, n: int, d: int)
    requires s != [] && NumberOf(s[..|s| - 1]) == Some(n) && ValueOf(s[|s| - 1]) == Some(d)
    ensures NumberOf(s) == Some(n * 64 + d)
  {
    hide ValueOf;
  }

  lemma ReadsStep(s: Bytes, v: int)
    requires s != []
    ensures Reads(s, v) <==> 0 <= v && ValueOf(s[|s| - 1]) == Some(v % 64) && Reads(s[..|s| - 1], v / 64)
  {
    ValueIsPlace(s[|s| - 1], v % 64);
    hide TABLE, ValueOf;
  }

  lemma DivMod(n: int, d: int)
    requires 0 <= d < 64
    ensures (n * 64 + d) / 64 == n && (n * 64 + d) % 64 == d
  {
  }

  lemma {:induction false} ReadsMeansNumber(s: Bytes, v: int)
    requires Reads(s, v)
    ensures NumberOf(s) == Some(v)
  {
    if s != [] {
      ReadsStep(s, v);
      ReadsMeansNumber(s[..|s| - 1], v / 64);
      hide Reads, NumberOf, ValueOf;
      NumberStep(s, v / 64, v % 64);
    }
  }

  lemma {:induction false} NumberMeansReads(s: Bytes)
    requires NumberOf(s).Some?
    ensures Reads(s, NumberOf(s).value)
  {
    if s != [] {
      var n, d := NumberOf(s[..|s| - 1]).value, ValueOf(s[|s| - 1]).value;
      ValueIsPlace(s[|s| - 1], d);
      DivMod(n, d);
      NumberMeansReads(s[..|s| - 1]);
      assert NumberOf(s) == Some(n * 64 + d);
      hide Reads, NumberOf, ValueOf;
      ReadsStep(s, n * 64 + d);
    }
  }

  /** The bytes b, at most three, as a number in base 256. */
  function Base256(b: Bytes): int {
    if b == [] then 0 else Base256(b[..|b| - 1]) * 256 + b[|b| - 1] as int
  }

  /** Quanta without padding, and the last quantum, which may have one or two places of it, whose unused bits do not matter. */
  ghost predicate FullDenotes(s: Bytes, b: Bytes) {
    |s| == 4 && |b| == 3 && Reads(s, Base256(b))
  }

  ghost predicate TwoDenoted(s: Bytes, b: Bytes) {
    |s| == 4 && |b| == 2 && s[3] == '=' && exists v :: Reads(s[..3], v) && v / 4 == Base256(b)
  }

  ghost predicate OneDenoted(s: Bytes, b: Bytes) {
    |s| == 4 && |b| == 1 && s[2] == s[3] == '=' && exists v :: Reads(s[..2], v) && v / 16 == Base256(b)
  }

  ghost predicate LastDenotes(s: Bytes, b: Bytes) {
    FullDenotes(s, b) || TwoDenoted(s, b) || OneDenoted(s, b)
  }

  /** The text s denotes the bytes b: quanta of four symbols and nothing else, padding in the last one only. */
  ghost predicate Denotes(s: Bytes, b: Bytes) {
    if |s| <= 4 then if s == [] then b == [] else LastDenotes(s, b)
    else |b| >= 3 && FullDenotes(s[..4], b[..3]) && Denotes(s[4..], b[3..])
  }

  lemma NumberOfOne(s: Bytes)
    requires |s| == 1
    ensures NumberOf(s) == ValueOf(s[0])
  {
    hide ValueOf;
    assert s[..0] == [];
  }

  lemma NumberOfTwo(s: Bytes)
    requires |s| == 2
    ensures NumberOf(s) == match (ValueOf(s[0]), ValueOf(s[1])) case (Some(w), Some(x)) => Some(w * 64 + x) case _ => None
  {
    NumberOfOne(s[..1]);
    hide ValueOf;
  }

  lemma NumberOfThree(s: Bytes)
    requires |s| == 3
    ensures NumberOf(s) == match (ValueOf(s[0]), ValueOf(s[1]), ValueOf(s[2]))
      case (Some(w), Some(x), Some(y)) => Some((w * 64 + x) * 64 + y) case _ => None
  {
    NumberOfTwo(s[..2]);
    hide ValueOf;
  }

  lemma NumberOfFour(s: Bytes)
    requires |s| == 4
    ensures NumberOf(s) == match (ValueOf(s[0]), ValueOf(s[1]), ValueOf(s[2]), ValueOf(s[3]))
      case (Some(w), Some(x), Some(y), Some(z)) => Some(((w * 64 + x) * 64 + y) * 64 + z) case _ => None
  {
    NumberOfThree(s[..3]);
    hide ValueOf;
  }

  lemma Base256Is(b: Bytes)
    ensures |b| == 1 ==> Base256(b) == b[0] as int
    ensures |b| == 2 ==> Base256(b) == b[0] as int * 256 + b[1] as int
    ensures |b| == 3 ==> Base256(b) == (b[0] as int * 256 + b[1] as int) * 256 + b[2] as int
  {
    if |b| == 1 {
      assert b[..0] == [];
    } else if |b| == 2 {
      assert b[..1] == [b[0]] && [b[0]][..0] == [];
    } else if |b| == 3 {
      assert b[..2] == [b[0], b[1]] && [b[0], b[1]][..1] == [b[0]] && [b[0]][..0] == [];
    }
  }

  lemma SameTwo(a: int, b: int, c: int, d: int)
    requires 0 <= b < 256 && 0 <= d < 256
    ensures a * 256 + b == c * 256 + d <==> a == c && b == d
  {
  }

  lemma Regrouped(w: int, x: int, y: int, z: int)
    requires 0 <= w < 64 && 0 <= x < 64 && 0 <= y < 64 && 0 <= z < 64
    ensures 0 <= x % 16 * 16 + y / 4 < 256 && 0 <= y % 4 * 64 + z < 256
    ensures ((w * 64 + x) * 64 + y) * 64 + z == ((w * 4 + x / 16) * 256 + (x % 16 * 16 + y / 4)) * 256 + (y % 4 * 64 + z)
  {
    assert x == x / 16 * 16 + x % 16 && y == y / 4 * 4 + y % 4;
  }

  /** Three bytes are the four sextets exactly when they are the same number. */
  lemma SameNumber(w: int, x: int, y: int, z: int, a: int, b: int, c: int)
    requires 0 <= w < 64 && 0 <= x < 64 && 0 <= y < 64 && 0 <= z < 64
    requires 0 <= a < 256 && 0 <= b < 256 && 0 <= c < 256
    ensures (w * 4 + x / 16 == a && x % 16 * 16 + y / 4 == b && y % 4 * 64 + z == c)
      <==> ((w * 64 + x) * 64 + y) * 64 + z == (a * 256 + b) * 256 + c
  {
    Regrouped(w, x, y, z);
    var p, q, r := w * 4 + x / 16, x % 16 * 16 + y / 4, y % 4 * 64 + z;
    SameTwo(p * 256 + q, r, a * 256 + b, c);
    SameTwo(p, q, a, b);
  }

  lemma ReadsIff(s: Bytes, v: int)
    ensures Reads(s, v) <==> NumberOf(s) == Some(v)
  {
    hide *;
    if Reads(s, v) {
      ReadsMeansNumber(s, v);
    }
    if NumberOf(s) == Some(v) {
      NumberMeansReads(s);
    }
  }

  lemma ValueRange(c: Octet)
    ensures ValueOf(c).Some? ==> 0 <= ValueOf(c).value < 64
    ensures ValueOf('=') == None
  {
  }

  lemma Bytes3Is(w: int, x: int, y: int, z: int, b: Bytes)
    requires 0 <= w < 64 && 0 <= x < 64 && 0 <= y < 64 && 0 <= z < 64 && |b| == 3
    ensures Bytes3(w, x, y, z) == b <==> Base256(b) == ((w * 64 + x) * 64 + y) * 64 + z
  {
    Base256Is(b);
    SameNumber(w, x, y, z, b[0] as int, b[1] as int, b[2] as int);
    hide Base256;
    assert b == [b[0], b[1], b[2]];
  }

  lemma QuadIff(s: Bytes, b: Bytes)
    requires |s| == 4
    ensures DecodeQuad(s) == Some(b) <==> FullDenotes(s, b)
  {
    NumberOfFour(s);
    ReadsIff(s, Base256(b));
    ValueRange(s[0]);
    ValueRange(s[1]);
    ValueRange(s[2]);
    ValueRange(s[3]);
    hide Reads, NumberOf, ValueOf, Bytes3, Base256;
    match (ValueOf(s[0]), ValueOf(s[1]), ValueOf(s[2]), ValueOf(s[3])) {
      case (Some(w), Some(x), Some(y), Some(z)) =>
        assert |Bytes3(w, x, y, z)| == 3 by { Bytes3Length(w, x, y, z); }
        if |b| == 3 {
          Bytes3Is(w, x, y, z, b);
        }
      case _ =>
    }
  }

  lemma Bytes3Length(w: int, x: int, y: int, z: int)
    requires 0 <= w < 64 && 0 <= x < 64 && 0 <= y < 64 && 0 <= z < 64
    ensures |Bytes3(w, x, y, z)| == 3
  {
  }

  lemma TwoOfThree(w: int, x: int, y: int)
    requires 0 <= w < 64 && 0 <= x < 64 && 0 <= y < 64
    ensures 0 <= w * 4 + x / 16 < 256 && 0 <= x % 16 * 16 + y / 4 < 256
    ensures ((w * 64 + x) * 64 + y) / 4 == (w * 4 + x / 16) * 256 + (x % 16 * 16 + y / 4)
    ensures (w * 64 + x) / 16 == w * 4 + x / 16
  {
  }

  lemma Bytes3At(w: int, x: int, y: int, z: int)
    requires 0 <= w < 64 && 0 <= x < 64 && 0 <= y < 64 && 0 <= z < 64
    ensures var all := Bytes3(w, x, y, z);
      |all| == 3 && all[0] as int == w * 4 + x / 16 && all[1] as int == x % 16 * 16 + y / 4
  {
  }

  /** What is left of three bytes when the places of the last symbols are padding. */
  lemma TwoLeft(w: int, x: int, y: int, b: Bytes)
    requires 0 <= w < 64 && 0 <= x < 64 && 0 <= y < 64 && |Bytes3(w, x, y, 0)| == 3
    ensures Bytes3(w, x, y, 0)[..2] == b <==> |b| == 2 && ((w * 64 + x) * 64 + y) / 4 == Base256(b)
  {
    hide *;
    var all := Bytes3(w, x, y, 0);
    Bytes3At(w, x, y, 0);
    TwoOfThree(w, x, y);
    Base256Is(b);
    if |b| == 2 {
      SameTwo(all[0] as int, all[1] as int, b[0] as int, b[1] as int);
      assert all[..2] == [all[0], all[1]] && b == [b[0], b[1]];
    }
  }

  lemma OneLeft(w: int, x: int, b: Bytes)
    requires 0 <= w < 64 && 0 <= x < 64 && |Bytes3(w, x, 0, 0)| == 3
    ensures Bytes3(w, x, 0, 0)[..1] == b <==> |b| == 1 && (w * 64 + x) / 16 == Base256(b)
  {
    hide *;
    var all := Bytes3(w, x, 0, 0);
    Bytes3At(w, x, 0, 0);
    TwoOfThree(w, x, 0);
    Base256Is(b);
    if |b| == 1 {
      assert all[..1] == [all[0]] && b == [b[0]];
    }
  }

  lemma UniqueReading(s: Bytes, v: int)
    requires NumberOf(s) == Some(v)
    ensures Reads(s, v) && forall u :: Reads(s, u) ==> u == v
  {
    hide Reads, NumberOf;
    ReadsIff(s, v);
    forall u | Reads(s, u) ensures u == v {
      ReadsIff(s, u);
    }
  }

  lemma NoReading(s: Bytes)
    requires NumberOf(s) == None
    ensures forall u :: !Reads(s, u)
  {
    hide Reads, NumberOf;
    forall u ensures !Reads(s, u) {
      ReadsIff(s, u);
    }
  }

  lemma TwoPlacesIff(s: Bytes, b: Bytes)
    requires |s| == 4 && s[3] == '=' && s[2] != '='
    ensures DecodeLast(s) == Some(b) <==> TwoDenoted(s, b)
  {
    NumberOfThree(s[..3]);
    ValueRange(s[0]);
    ValueRange(s[1]);
    ValueRange(s[2]);
    hide Reads, NumberOf, ValueOf, Bytes3, Base256, DecodeQuad;
    match (ValueOf(s[0]), ValueOf(s[1]), ValueOf(s[2])) {
      case (Some(w), Some(x), Some(y)) =>
        Bytes3Length(w, x, y, 0);
        TwoLeft(w, x, y, b);
        UniqueReading(s[..3], (w * 64 + x) * 64 + y);
      case _ => NoReading(s[..3]);
    }
  }

  lemma OnePlaceIff(s: Bytes, b: Bytes)
    requires |s| == 4 && s[3] == s[2] == '='
    ensures DecodeLast(s) == Some(b) <==> OneDenoted(s, b)
  {
    NumberOfTwo(s[..2]);
    ValueRange(s[0]);
    ValueRange(s[1]);
    hide Reads, NumberOf, ValueOf, Bytes3, Base256, DecodeQuad;
    match (ValueOf(s[0]), ValueOf(s[1])) {
      case (Some(w), Some(x)) =>
        Bytes3Length(w, x, 0, 0);
        OneLeft(w, x, b);
        UniqueReading(s[..2], w * 64 + x);
      case _ => NoReading(s[..2]);
    }
  }

  /** The padding has no place in the table. */
  lemma PaddingIsNotRead(s: Bytes, v: int)
    requires s != [] && s[|s| - 1] == '='
    ensures !Reads(s, v)
  {
    ReadsStep(s, v);
    ValueRange('=');
    hide Reads, ValueOf;
  }

  lemma PaddedIsNotFull(s: Bytes, b: Bytes)
    requires |s| == 4 && s[3] == '='
    ensures !FullDenotes(s, b) && (s[2] == '=' ==> !TwoDenoted(s, b))
  {
    hide Reads, Base256;
    PaddingIsNotRead(s, Base256(b));
    if s[2] == '=' {
      forall v ensures !Reads(s[..3], v) {
        PaddingIsNotRead(s[..3], v);
      }
    }
  }

  lemma UnpaddedIsFull(s: Bytes, b: Bytes)
    requires |s| == 4
    ensures s[3] != '=' ==> !TwoDenoted(s, b) && !OneDenoted(s, b)
    ensures s[2] != '=' ==> !OneDenoted(s, b)
  {
  }

  lemma UnpaddedIsQuad(s: Bytes)
    requires |s| == 4 && s[3] != '='
    ensures DecodeLast(s) == DecodeQuad(s)
  {
    hide DecodeQuad;
  }

  lemma LastIff(s: Bytes, b: Bytes)
    requires |s| == 4
    ensures DecodeLast(s) == Some(b) <==> LastDenotes(s, b)
  {
    hide FullDenotes, TwoDenoted, OneDenoted, DecodeLast, DecodeQuad;
    UnpaddedIsFull(s, b);
    if s[3] != '=' {
      QuadIff(s, b);
      UnpaddedIsQuad(s);
    } else {
      PaddedIsNotFull(s, b);
      if s[2] != '=' {
        TwoPlacesIff(s, b);
      } else {
        OnePlaceIff(s, b);
      }
    }
  }

  /**
   What the decoder accepts, and what it makes of it: it decodes s to b exactly when s denotes b, quantum by quantum, by the
   places of its symbols in the table.
   */
  lemma {:induction false} DecodeIff(s: Bytes, b: Bytes)
    ensures Decode(s) == Some(b) <==> Denotes(s, b)
  {
    hide DecodeLast, DecodeQuad, LastDenotes, FullDenotes;
    if |s| == 4 {
      LastIff(s, b);
    } else if 0 < |s| < 4 {
      NotLast(s, b);
    } else if |s| > 4 {
      if Decode(s) == Some(b) {
        var first, rest := DecodeQuad(s[..4]).value, Decode(s[4..]).value;
        QuadIff(s[..4], first);
        FullLength(s[..4], first);
        assert b[..3] == first && b[3..] == rest;
        DecodeIff(s[4..], rest);
      }
      if Denotes(s, b) {
        QuadIff(s[..4], b[..3]);
        DecodeIff(s[4..], b[3..]);
        assert b[..3] + b[3..] == b;
      }
    }
  }

  lemma FullLength(s: Bytes, b: Bytes)
    requires FullDenotes(s, b)
    ensures |b| == 3
  {
  }

  lemma NotLast(s: Bytes, b: Bytes)
    requires |s| < 4
    ensures !LastDenotes(s, b)
  {
  }
}

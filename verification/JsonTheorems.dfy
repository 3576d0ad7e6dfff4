/** What the printer and the parser compute, in terms of numbers and grammar rather than of each other. */
module JsonTheorems {
  import opened Common
  import opened Json

  // ---- the text of a number ----

  function Pow10(i: nat): (p: nat)
    ensures p >= 1
  {
    if i == 0 then 1 else 10 * Pow10(i - 1)
  }

  /**
   s is the decimal text of n: the digit at each place, counted from the right, and no zero in front of it (section 6 of
   RFC 8259).
   */
  ghost predicate IsDecimal(s: Bytes, n: nat) {
    && s != []
    && (forall i: nat :: i < |s| ==> s[|s| - 1 - i] as int == 48 + n / Pow10(i) % 10)
    && n < Pow10(|s|) && (|s| > 1 ==> Pow10(|s| - 1) <= n)
  }

  /** A negative number has a minus sign in front. */
  ghost predicate IsInteger(s: Bytes, n: int) {
    if n < 0 then s != [] && s[0] == '-' && IsDecimal(s[1..], -n) else IsDecimal(s, n)
  }

  /** Division by a product, in two steps. */
  lemma DivideTwice(n: nat, a: nat)
    requires a > 0
    ensures n / (10 * a) == n / 10 / a
  {
    var m := n / 10;
    var q, r := m / a, m % a;
    var rest := 10 * r + n % 10;
    assert m == q * a + r;
    assert n == 10 * m + n % 10 == 10 * (q * a) + rest;
    assert 10 * (q * a) == (10 * a) * q;
    assert r <= a - 1 && 0 <= rest < 10 * a;
    QuotientIs(n, 10 * a, q, rest);
  }

  lemma Multiples(d: int, k: int)
    requires d > 0
    ensures k >= 1 ==> d * k >= d
    ensures k <= -1 ==> d * k <= -d
  {
  }

  lemma QuotientIs(n: int, d: int, q: int, r: int)
    requires n == d * q + r && 0 <= r < d
    ensures n / d == q
  {
    var k := n / d - q;
    assert d * (n / d) + n % d == n;
    assert d * k == r - n % d;
    Multiples(d, k);
  }

  lemma {:induction false} DumpNatIsDecimal(n: nat)
    ensures IsDecimal(DumpNat(n), n)
  {
    if n < 10 {
      assert Pow10(0) == 1 && Pow10(1) == 10;
      assert n / 1 % 10 == n;
    } else {
      DumpNatIsDecimal(n / 10);
      OneMoreDigit(DumpNat(n / 10), n);
    }
  }

  lemma OneMoreDigit(s: Bytes, n: nat)
    requires n >= 10 && IsDecimal(s, n / 10)
    ensures IsDecimal(s + [Digit(n % 10)], n)
  {
    var all := s + [Digit(n % 10)];
    forall i: nat | i < |all| ensures all[|all| - 1 - i] as int == 48 + n / Pow10(i) % 10 {
      if i == 0 {
        assert n / 1 == n;
      } else {
        assert all[|all| - 1 - i] == s[|s| - 1 - (i - 1)];
        DivideTwice(n, Pow10(i - 1));
      }
    }
    assert Pow10(|all|) == 10 * Pow10(|s|) && Pow10(|all| - 1) == Pow10(|s|);
    if |s| > 1 {
      assert Pow10(|s|) == 10 * Pow10(|s| - 1);
    }
    hide IsDecimal;
    assert n / 10 < Pow10(|s|);
  }

  /** The printer writes the decimal text of a number. */
  lemma DumpIntIsInteger(n: int)
    ensures IsInteger(DumpInt(n), n)
  {
    if n < 0 {
      DumpNatIsDecimal(-n);
      assert DumpInt(n)[1..] == DumpNat(-n);
    } else {
      DumpNatIsDecimal(n);
    }
  }

  // ---- the parser accepts what the printer prints, and nothing else ----

  /** A zero with a minus sign is read as zero, but never printed. */
  ghost predicate NoMinusZero(s: Bytes) {
    forall i :: 0 <= i < |s| - 1 ==> !(s[i] == '-' && s[i + 1] == '0')
  }

  lemma FirstAndRest(s: Bytes)
    requires s != []
    ensures s == [s[0]] + s[1..]
  {
  }

  lemma NoMinusZeroAfter(a: Bytes, b: Bytes)
    requires NoMinusZero(a + b)
    ensures NoMinusZero(b)
  {
    forall i | 0 <= i < |b| - 1 ensures !(b[i] == '-' && b[i + 1] == '0') {
      assert (a + b)[|a| + i] == b[i] && (a + b)[|a| + i + 1] == b[i + 1];
    }
  }

  lemma {:induction false} PrefixIsPlain(s: Bytes)
    ensures Plain(s[..PlainPrefix(s)])
  {
    if s != [] && PlainChar(s[0]) {
      PrefixIsPlain(s[1..]);
      assert s[..PlainPrefix(s)] == [s[0]] + s[1..][..PlainPrefix(s[1..])];
    }
  }

  lemma StringWas(s: Bytes)
    requires ParseString(s).Parsed?
    ensures Plain(ParseString(s).value) && s == Quote(ParseString(s).value) + ParseString(s).rest
  {
    PrefixIsPlain(s[1..]);
    var n := PlainPrefix(s[1..]);
    assert s[1..1 + n] == s[1..][..n];
    assert s == ['"'] + s[1..1 + n] + ['"'] + s[2 + n..];
  }

  lemma {:induction false} DigitsWere(d: Bytes)
    requires d != [] && (forall i :: 0 <= i < |d| ==> IsDigit(d[i])) && d[0] != '0'
    ensures NatOf(d) > 0 && DumpNat(NatOf(d)) == d
  {
    var init, c := d[..|d| - 1], d[|d| - 1];
    assert d == init + [c] && IsDigit(c);
    if init == [] {
      assert NatOf(d) == c as int - 48;
    } else {
      DigitsWere(init);
      assert NatOf(d) == NatOf(init) * 10 + (c as int - 48);
      assert NatOf(d) / 10 == NatOf(init) && NatOf(d) % 10 == c as int - 48;
    }
  }

  lemma NatWas(s: Bytes)
    requires ParseNat(s).Parsed?
    ensures ParseNat(s).value >= 0 && s == DumpNat(ParseNat(s).value) + ParseNat(s).rest
    ensures ParseNat(s).value == 0 ==> s[0] == '0'
  {
    var n := DigitPrefix(s);
    DigitPrefixIsDigits(s);
    if s[0] != '0' {
      DigitsWere(s[..n]);
    }
  }

  lemma NegativeWas(s: Bytes)
    requires s != [] && s[0] == '-' && ParseNat(s[1..]).Parsed? && ParseNat(s[1..]).value > 0
    requires s[1..] == DumpNat(ParseNat(s[1..]).value) + ParseNat(s[1..]).rest
    ensures s == DumpInt(-ParseNat(s[1..]).value) + ParseNat(s[1..]).rest
  {
    hide ParseNat, DumpNat;
    FirstAndRest(s);
  }

  lemma IntWas(s: Bytes)
    requires ParseInt(s).Parsed? && NoMinusZero(s)
    ensures s == DumpInt(ParseInt(s).value) + ParseInt(s).rest
  {
    hide ParseNat, DumpNat;
    if s != [] && s[0] == '-' {
      NatWas(s[1..]);
      assert ParseNat(s[1..]).value > 0;
      NegativeWas(s);
    } else {
      NatWas(s);
    }
  }

  lemma ValueParts(s: Bytes)
    requires ParseValue(s).Parsed?
    ensures s != []
    ensures var r := ParseValue(s);
      if s[0] == '"' then ParseString(s) == Parsed(match r.value case Str(text) => text case _ => [], r.rest) && r.value.Str?
      else if s[0] == '{' then
        r.value.Obj? && ParseMembers(s[1..], false) == Parsed(r.value.members, r.rest)
      else r.value.Num? && ParseInt(s) == Parsed(r.value.number, r.rest)
  {
    hide ParseString, ParseInt, ParseMembers;
  }

  lemma ObjectWas(s: Bytes, m: Members, rest: Bytes)
    requires s != [] && s[0] == '{' && PlainMembers(m) && s[1..] == DumpMembers(m, false) + rest
    ensures PlainValue(Obj(m)) && s == Dump(Obj(m)) + rest
  {
    FirstAndRest(s);
    hide DumpMembers;
  }

  lemma TextWas(text: Bytes)
    requires Plain(text)
    ensures PlainValue(Str(text)) && Dump(Str(text)) == Quote(text)
  {
  }

  lemma NumberWas(n: int)
    ensures PlainValue(Num(n)) && Dump(Num(n)) == DumpInt(n)
  {
  }

  lemma {:induction false} ValueWas(s: Bytes)
    requires ParseValue(s).Parsed? && NoMinusZero(s)
    ensures PlainValue(ParseValue(s).value) && s == Dump(ParseValue(s).value) + ParseValue(s).rest
    decreases |s|
  {
    hide *;
    ValueParts(s);
    var r := ParseValue(s);
    if s[0] == '"' {
      StringWas(s);
      TextWas(r.value.text);
    } else if s[0] == '{' {
      FirstAndRest(s);
      NoMinusZeroAfter([s[0]], s[1..]);
      MembersWere(s[1..], false);
      ObjectWas(s, r.value.members, r.rest);
    } else {
      IntWas(s);
      NumberWas(r.value.number);
    }
  }

  /** What one turn of the members' parser reads. */
  lemma MemberWas(s: Bytes, comma: bool, key: Bytes, afterKey: Bytes, afterValue: Bytes, value: Value, more: Members, rest: Bytes)
    requires Plain(key) && PlainValue(value) && PlainMembers(more)
    requires s == Separator(comma) + (Quote(key) + afterKey)
    requires afterKey != [] && afterKey[0] == ':' && afterKey[1..] == Dump(value) + afterValue
    requires afterValue == DumpMembers(more, true) + rest
    ensures PlainMembers(Member(key, value, more)) && s == DumpMembers(Member(key, value, more), comma) + rest
  {
    assert afterKey == [':'] + afterKey[1..];
    var dumped, tail := Dump(value), DumpMembers(more, true);
    assert DumpMembers(Member(key, value, more), comma) == Separator(comma) + Quote(key) + [':'] + dumped + tail;
    hide Dump, DumpMembers, Quote, Separator;
    Regroup(Separator(comma), Quote(key), dumped, tail, rest);
  }

  /** The parts of that turn. */
  lemma MemberParts(s: Bytes, comma: bool)
    requires ParseMembers(s, comma).Parsed? && s != [] && s[0] != '}'
    ensures var body := if comma then s[1..] else s; var k := ParseString(body);
      && s == Separator(comma) + body && |body| <= |s|
      && k.Parsed? && k.rest != [] && k.rest[0] == ':' && |k.rest| < |body|
      && var v := ParseValue(k.rest[1..]);
         && v.Parsed? && |v.rest| < |k.rest|
         && var more := ParseMembers(v.rest, true);
            && more.Parsed? && ParseMembers(s, comma) == Parsed(Member(k.value, v.value, more.value), more.rest)
  {
    hide ParseString, ParseValue;
    if comma {
      assert s == [','] + s[1..];
    }
  }

  lemma ClosedWas(s: Bytes, comma: bool)
    requires s != [] && s[0] == '}'
    ensures ParseMembers(s, comma) == Parsed(Empty, s[1..]) && PlainMembers(Empty) && s == DumpMembers(Empty, comma) + s[1..]
  {
    assert s == ['}'] + s[1..];
  }

  lemma {:induction false} MembersWere(s: Bytes, comma: bool)
    requires ParseMembers(s, comma).Parsed? && NoMinusZero(s)
    ensures PlainMembers(ParseMembers(s, comma).value)
    ensures s == DumpMembers(ParseMembers(s, comma).value, comma) + ParseMembers(s, comma).rest
    decreases |s|
  {
    assert s != [];
    hide *;
    if s[0] == '}' {
      ClosedWas(s, comma);
    } else {
      MemberParts(s, comma);
      var body := if comma then s[1..] else s;
      NoMinusZeroAfter(Separator(comma), body);
      var k := ParseString(body);
      StringWas(body);
      NoMinusZeroAfter(Quote(k.value), k.rest);
      FirstAndRest(k.rest);
      NoMinusZeroAfter([':'], k.rest[1..]);
      var v := ParseValue(k.rest[1..]);
      ValueWas(k.rest[1..]);
      NoMinusZeroAfter(Dump(v.value), v.rest);
      var more := ParseMembers(v.rest, true);
      MembersWere(v.rest, true);
      MemberWas(s, comma, k.value, k.rest, v.rest, v.value, more.value, more.rest);
    }
  }

  /** The parser accepts exactly the texts that the printer writes, and reads each as the value it was written from. */
  lemma ParseIff(s: Bytes, v: Value)
    requires NoMinusZero(s)
    ensures Parse(s) == Some(v) <==> PlainValue(v) && Dump(v) == s
  {
    if Parse(s) == Some(v) {
      ValueWas(s);
      assert Dump(v) + [] == Dump(v);
    }
    if PlainValue(v) && Dump(v) == s {
      RoundTrip(v);
    }
    hide *;
  }
}

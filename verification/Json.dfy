/**
 The part of JSON (RFC 8259) that the message frames are made of: objects of strings, integers and objects, dumped
 without white space and with the keys in order, as nlohmann::json does.
 */
module Json {
  import opened Common

  datatype Value = Str(text: Bytes) | Num(number: int) | Obj(members: Members)

  datatype Members = Empty | Member(key: Bytes, value: Value, rest: Members)

  /** The order of the keys of a std::map<std::string, ...>. */
  predicate Less(a: Bytes, b: Bytes) {
    b != [] && (a == [] || a[0] < b[0] || (a[0] == b[0] && Less(a[1..], b[1..])))
  }

  /** data[key] = value */
  function Set(m: Members, key: Bytes, value: Value): Members {
    match m
    case Empty => Member(key, value, Empty)
    case Member(k, v, rest) =>
      if k == key then Member(key, value, rest)
      else if Less(key, k) then Member(key, value, m)
      else Member(k, v, Set(rest, key, value))
  }

  function Get(m: Members, key: Bytes): Option<Value> {
    match m
    case Empty => None
    case Member(k, v, rest) => if k == key then Some(v) else Get(rest, key)
  }

  /** Assigning to one key changes that key and no other. */
  lemma {:induction false} GetAfterSet(m: Members, key: Bytes, value: Value, k: Bytes)
    ensures Get(Set(m, key, value), k) == if k == key then Some(value) else Get(m, k)
  {
    hide Less;
    if m.Member? {
      GetAfterSet(m.rest, key, value, k);
    }
  }

  /** A character that a JSON string holds as it is: printable ASCII other than the quotation mark and the backslash. */
  predicate PlainChar(c: char) {
    ' ' <= c <= '~' && c != '"' && c != '\\'
  }

  predicate Plain(s: Bytes) {
    forall i :: 0 <= i < |s| ==> PlainChar(s[i])
  }

  /** No string in it needs an escape. */
  predicate PlainValue(v: Value) {
    match v
    case Str(text) => Plain(text)
    case Num(_) => true
    case Obj(members) => PlainMembers(members)
  }

  predicate PlainMembers(m: Members) {
    m.Member? ==> Plain(m.key) && PlainValue(m.value) && PlainMembers(m.rest)
  }

  function Digit(n: int): Octet
    requires 0 <= n < 10
  {
    (48 + n) as char
  }

  function DumpNat(n: nat): (s: Bytes) {
    if n < 10 then [Digit(n)] else DumpNat(n / 10) + [Digit(n % 10)]
  }

  function DumpInt(n: int): Bytes {
    if n < 0 then ['-'] + DumpNat(-n) else DumpNat(n)
  }

  function Quote(s: Bytes): Bytes
    requires Plain(s)
  {
    ['"'] + s + ['"']
  }

  function Dump(v: Value): Bytes
    requires PlainValue(v)
  {
    match v
    case Str(text) => Quote(text)
    case Num(number) => DumpInt(number)
    case Obj(members) => ['{'] + DumpMembers(members, false)
  }

  /** The members that are left, and the closing brace. */
  function DumpMembers(m: Members, comma: bool): Bytes
    requires PlainMembers(m)
  {
    match m
    case Empty => ['}']
    case Member(k, v, rest) =>
      Separator(comma) + Quote(k) + [':'] + Dump(v) + DumpMembers(rest, true)
  }

  function Separator(comma: bool): Bytes {
    if comma then [','] else []
  }

  // ---- parsing ----

  /** A parser's result: what it has read, and the input that is left. */
  datatype Parsed<+T> = Failed | Parsed(value: T, rest: Bytes)

  function PlainPrefix(s: Bytes): (n: nat)
    ensures n <= |s|
  {
    if s == [] || !PlainChar(s[0]) then 0 else 1 + PlainPrefix(s[1..])
  }

  /** A string without escapes. */
  function ParseString(s: Bytes): (r: Parsed<Bytes>)
    ensures r.Parsed? ==> |r.rest| < |s|
  {
    if s == [] || s[0] != '"' then Failed
    else
      var n := PlainPrefix(s[1..]);
      if 1 + n < |s| && s[1 + n] == '"' then Parsed(s[1..1 + n], s[2 + n..]) else Failed
  }

  predicate IsDigit(c: char) {
    '0' <= c <= '9'
  }

  function DigitPrefix(s: Bytes): (n: nat)
    ensures n <= |s|
  {
    if s == [] || !IsDigit(s[0]) then 0 else 1 + DigitPrefix(s[1..])
  }

  function NatOf(s: Bytes): nat
    requires forall i :: 0 <= i < |s| ==> IsDigit(s[i])
  {
    if s == [] then 0
    else
      assert IsDigit(s[|s| - 1]);
      NatOf(s[..|s| - 1]) * 10 + (s[|s| - 1] as int - 48)
  }

  lemma {:induction false} DigitPrefixIsDigits(s: Bytes)
    ensures forall i :: 0 <= i < DigitPrefix(s) ==> IsDigit(s[i])
  {
    if s != [] && IsDigit(s[0]) {
      DigitPrefixIsDigits(s[1..]);
    }
  }

  /** The digits of a number; a zero in front is a number of its own. */
  function ParseNat(s: Bytes): (r: Parsed<int>)
    ensures r.Parsed? ==> |r.rest| < |s|
  {
    var n := DigitPrefix(s);
    DigitPrefixIsDigits(s);
    if n == 0 then Failed
    else if s[0] == '0' then Parsed(0, s[1..])
    else Parsed(NatOf(s[..n]), s[n..])
  }

  function ParseInt(s: Bytes): (r: Parsed<int>)
    ensures r.Parsed? ==> |r.rest| < |s|
  {
    if s != [] && s[0] == '-' then
      match ParseNat(s[1..])
      case Parsed(n, rest) => Parsed(-n, rest)
      case Failed => Failed
    else ParseNat(s)
  }

  function ParseValue(s: Bytes): (r: Parsed<Value>)
    ensures r.Parsed? ==> |r.rest| < |s|
    decreases |s|
  {
    if s == [] then Failed
    else if s[0] == '"' then
      match ParseString(s)
      case Parsed(text, rest) => Parsed(Str(text), rest)
      case Failed => Failed
    else if s[0] == '{' then
      match ParseMembers(s[1..], false)
      case Parsed(members, rest) => Parsed(Obj(members), rest)
      case Failed => Failed
    else
      match ParseInt(s)
      case Parsed(n, rest) => Parsed(Num(n), rest)
      case Failed => Failed
  }

  /** The members that are left, and the closing brace; a comma comes first unless this is the first member. */
  function ParseMembers(s: Bytes, comma: bool): (r: Parsed<Members>)
    ensures r.Parsed? ==> |r.rest| < |s|
    decreases |s|
  {
    if s == [] then Failed
    else if s[0] == '}' then Parsed(Empty, s[1..])
    else if comma && s[0] != ',' then Failed
    else
      match ParseString(if comma then s[1..] else s)
      case Failed => Failed
      case Parsed(key, afterKey) =>
        if afterKey == [] || afterKey[0] != ':' then Failed
        else
          match ParseValue(afterKey[1..])
          case Failed => Failed
          case Parsed(value, afterValue) =>
            match ParseMembers(afterValue, true)
            case Failed => Failed
            case Parsed(rest, left) => Parsed(Member(key, value, rest), left)
  }

  /** nlohmann::json::parse: the whole input has to be one value. */
  function Parse(s: Bytes): Option<Value> {
    match ParseValue(s)
    case Parsed(v, rest) => if rest == [] then Some(v) else None
    case Failed => None
  }

  // ---- what is dumped is parsed back ----

  lemma {:induction false} PlainPrefixStops(s: Bytes, rest: Bytes)
    requires Plain(s)
    ensures PlainPrefix(s + ['"'] + rest) == |s|
  {
    if s == [] {
      assert (s + ['"'] + rest)[0] == '"';
    } else {
      assert (s + ['"'] + rest)[1..] == s[1..] + ['"'] + rest;
      PlainPrefixStops(s[1..], rest);
    }
  }

  lemma QuoteParses(s: Bytes, rest: Bytes)
    requires Plain(s)
    ensures ParseString(Quote(s) + rest) == Parsed(s, rest)
  {
    var input := Quote(s) + rest;
    assert input[1..] == s + ['"'] + rest;
    PlainPrefixStops(s, rest);
    assert input[1..1 + |s|] == s && input[2 + |s|..] == rest;
  }

  lemma {:induction false} DumpNatIsDigits(n: nat)
    ensures DumpNat(n) != [] && (forall i :: 0 <= i < |DumpNat(n)| ==> IsDigit(DumpNat(n)[i])) && NatOf(DumpNat(n)) == n
    ensures DumpNat(n)[0] == '0' <==> n == 0
    ensures n == 0 ==> |DumpNat(n)| == 1
  {
    if n < 10 {
      assert [Digit(n)][..0] == [];
    } else {
      DumpNatIsDigits(n / 10);
      assert DumpNat(n)[..|DumpNat(n)| - 1] == DumpNat(n / 10);
    }
  }

  lemma {:induction false} DigitPrefixStops(s: Bytes, rest: Bytes)
    requires forall i :: 0 <= i < |s| ==> IsDigit(s[i])
    requires rest == [] || !IsDigit(rest[0])
    ensures DigitPrefix(s + rest) == |s|
  {
    if s == [] {
      assert s + rest == rest;
    } else {
      assert (s + rest)[1..] == s[1..] + rest;
      DigitPrefixStops(s[1..], rest);
    }
  }

  lemma DumpNatParses(n: nat, rest: Bytes)
    requires rest == [] || !IsDigit(rest[0])
    ensures ParseNat(DumpNat(n) + rest) == Parsed(n, rest)
  {
    DumpNatIsDigits(n);
    DigitPrefixStops(DumpNat(n), rest);
    hide DumpNat, DigitPrefix, NatOf;
    assert (DumpNat(n) + rest)[..|DumpNat(n)|] == DumpNat(n) && (DumpNat(n) + rest)[|DumpNat(n)|..] == rest;
  }

  /** A number begins with a digit or a minus sign. */
  lemma NumberBegins(n: int)
    ensures DumpInt(n) != []
    ensures if n < 0 then DumpInt(n)[0] == '-' else IsDigit(DumpInt(n)[0])
  {
    if n >= 0 {
      DumpNatIsDigits(n);
    }
  }

  lemma DumpIntParses(n: int, rest: Bytes)
    requires rest == [] || !IsDigit(rest[0])
    ensures ParseInt(DumpInt(n) + rest) == Parsed(n, rest)
  {
    NumberBegins(n);
    hide ParseNat, DumpNat;
    if n < 0 {
      DumpNatParses(-n, rest);
      assert (DumpInt(n) + rest)[1..] == DumpNat(-n) + rest;
    } else {
      DumpNatParses(n, rest);
      assert (DumpInt(n) + rest)[0] == DumpInt(n)[0] != '-';
    }
  }

  lemma StrParses(text: Bytes, rest: Bytes)
    requires Plain(text)
    ensures ParseValue(Quote(text) + rest) == Parsed(Str(text), rest)
  {
    QuoteParses(text, rest);
    hide ParseString;
  }

  lemma NumParses(n: int, rest: Bytes)
    requires rest == [] || !IsDigit(rest[0])
    ensures ParseValue(DumpInt(n) + rest) == Parsed(Num(n), rest)
  {
    DumpIntParses(n, rest);
    NumberBegins(n);
    hide ParseInt, DumpInt;
    assert (DumpInt(n) + rest)[0] == DumpInt(n)[0];
  }

  lemma ObjParses(m: Members, rest: Bytes)
    requires PlainMembers(m) && ParseMembers(DumpMembers(m, false) + rest, false) == Parsed(m, rest)
    ensures ParseValue(Dump(Obj(m)) + rest) == Parsed(Obj(m), rest)
  {
    hide ParseMembers, DumpMembers;
    assert (Dump(Obj(m)) + rest)[1..] == DumpMembers(m, false) + rest;
  }

  lemma {:induction false} DumpParses(v: Value, rest: Bytes)
    requires PlainValue(v) && (rest == [] || !IsDigit(rest[0]))
    ensures ParseValue(Dump(v) + rest) == Parsed(v, rest)
    decreases v
  {
    match v {
      case Str(text) => StrParses(text, rest);
      case Num(number) => NumParses(number, rest);
      case Obj(members) =>
        MembersParse(members, false, rest);
        ObjParses(members, rest);
        hide *;
    }
  }

  /** What is left after one member begins with a comma or a brace. */
  lemma TailBegins(m: Members, rest: Bytes)
    requires PlainMembers(m)
    ensures DumpMembers(m, true) != [] && !IsDigit((DumpMembers(m, true) + rest)[0])
  {
  }

  /** One turn of the members' parser. */
  lemma ParseOneMember(input: Bytes, comma: bool, k: Bytes, afterKey: Bytes, v: Value, tail: Bytes, more: Members, rest: Bytes)
    requires input != [] && (if comma then input[0] == ',' else input[0] == '"')
    requires ParseString(if comma then input[1..] else input) == Parsed(k, afterKey)
    requires afterKey != [] && afterKey[0] == ':' && ParseValue(afterKey[1..]) == Parsed(v, tail)
    requires ParseMembers(tail, true) == Parsed(more, rest)
    ensures ParseMembers(input, comma) == Parsed(Member(k, v, more), rest)
  {
    hide ParseString, ParseValue;
  }

  lemma Regroup(sep: Bytes, key: Bytes, value: Bytes, tail: Bytes, rest: Bytes)
    ensures sep + key + [':'] + value + tail + rest == sep + (key + ([':'] + (value + (tail + rest))))
  {
    assert (sep + key + [':'] + value) + tail + rest == (sep + key + [':'] + value) + (tail + rest);
    assert (sep + key + [':']) + value + (tail + rest) == (sep + key + [':']) + (value + (tail + rest));
    assert (sep + key) + [':'] + (value + (tail + rest)) == (sep + key) + ([':'] + (value + (tail + rest)));
  }

  lemma AfterSeparator(comma: bool, body: Bytes)
    requires body != [] && body[0] == '"'
    ensures var input := Separator(comma) + body;
      input != [] && (if comma then input[0] == ',' else input[0] == '"') && (if comma then input[1..] else input) == body
  {
  }

  /** One member, whatever its value's text is. */
  lemma MemberParses(
      k: Bytes, v: Value, dumped: Bytes, more: Members, tail: Bytes, comma: bool, rest: Bytes)
    requires Plain(k)
    requires ParseValue(dumped + (tail + rest)) == Parsed(v, tail + rest)
    requires ParseMembers(tail + rest, true) == Parsed(more, rest)
    ensures ParseMembers(Separator(comma) + Quote(k) + [':'] + dumped + tail + rest, comma) == Parsed(Member(k, v, more), rest)
  {
    var afterKey := [':'] + (dumped + (tail + rest));
    var body := Quote(k) + afterKey;
    assert body[0] == '"';
    QuoteParses(k, afterKey);
    hide ParseValue, ParseString, ParseMembers, Quote, Separator;
    Regroup(Separator(comma), Quote(k), dumped, tail, rest);
    AfterSeparator(comma, body);
    ParseOneMember(Separator(comma) + body, comma, k, afterKey, v, tail + rest, more, rest);
  }

  lemma {:induction false} MembersParse(m: Members, comma: bool, rest: Bytes)
    requires PlainMembers(m)
    ensures ParseMembers(DumpMembers(m, comma) + rest, comma) == Parsed(m, rest)
    decreases m
  {
    match m {
      case Empty =>
        assert (DumpMembers(m, comma) + rest)[1..] == rest;
      case Member(k, v, more) =>
        TailBegins(more, rest);
        DumpParses(v, DumpMembers(more, true) + rest);
        MembersParse(more, true, rest);
        MemberParses(k, v, Dump(v), more, DumpMembers(more, true), comma, rest);
        hide ParseMembers, Dump, ParseValue, Separator, Quote;
    }
  }

  /** Parsing gives back every value that needs no escapes. */
  lemma RoundTrip(v: Value)
    requires PlainValue(v)
    ensures Parse(Dump(v)) == Some(v)
  {
    DumpParses(v, []);
    assert Dump(v) + [] == Dump(v);
  }
}

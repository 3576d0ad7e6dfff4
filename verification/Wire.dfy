/**
 The bytes that the two frames become: a request is the JSON text itself with a base64 payload; a response is the
 base64 encoding of a JSON text that has a base64 payload, because it goes through the publisher.
 */
module Wire {
  import opened Common
  import opened Frames
  import opened Json
  import Base64
  import Base64Theorems
  import JsonTheorems

  const HEADER: Bytes := "header"
  const PAYLOAD: Bytes := "payload"
  const ID: Bytes := "id"
  const RESPONSE_CHANNEL: Bytes := "response_channel"
  const VALID_UNTIL: Bytes := "valid_until"

  /** The object that send_request builds, assignment by assignment. */
  function RequestValue(f: Request): Value {
    var named := Set(Set(Empty, RESPONSE_CHANNEL, Str(f.responseChannel)), ID, Str(f.id));
    var header := match f.validUntilMs case Some(ms) => Set(named, VALID_UNTIL, Num(ms)) case None => named;
    Obj(Set(Set(Empty, HEADER, Obj(header)), PAYLOAD, Str(Base64.Encode(f.payload))))
  }

  /** The object that the request handler builds. */
  function ResponseValue(f: Response): Value {
    Obj(Set(Set(Empty, HEADER, Obj(Set(Empty, ID, Str(f.id)))), PAYLOAD, Str(Base64.Encode(f.payload))))
  }

  /** dump() of a frame; text that would need an escape is not modelled, and FramesNeedNoEscape says that none does. */
  function Text(v: Value): Bytes {
    if PlainValue(v) then Dump(v) else []
  }

  /** What send_request gives to the broker. */
  function EncodeRequest(f: Request): Bytes {
    Text(RequestValue(f))
  }

  /** What the publisher gives to the broker. */
  function EncodeResponse(f: Response): Bytes {
    Base64.Encode(Text(ResponseValue(f)))
  }

  function Member(v: Value, key: Bytes): Option<Value> {
    if v.Obj? then Get(v.members, key) else None
  }

  /** Conversion to std::string throws on anything but a string. */
  function StringAt(v: Value, key: Bytes): Option<Bytes> {
    match Member(v, key) case Some(Str(text)) => Some(text) case _ => None
  }

  function PayloadOf(v: Value): Option<Bytes> {
    match StringAt(v, PAYLOAD) case Some(text) => Base64.Decode(text) case None => None
  }

  /** The reading side of the request handler's on_message. None stands for its exceptions. */
  function DecodeRequest(s: Bytes): Option<Request> {
    match Parse(s)
    case None => None
    case Some(v) =>
      match Member(v, HEADER)
      case None => None
      case Some(header) =>
        match (StringAt(header, ID), StringAt(header, RESPONSE_CHANNEL), PayloadOf(v))
        case (Some(id), Some(rc), Some(payload)) =>
          (match Member(header, VALID_UNTIL)
           case None => Some(Request(id, rc, None, payload))
           case Some(Num(ms)) => Some(Request(id, rc, Some(ms), payload))
           case _ => None)
        case _ => None
  }

  /** The subscriber's decoding and then the response callback's. */
  function DecodeResponse(s: Bytes): Option<Response> {
    match Base64.Decode(s)
    case None => None
    case Some(text) =>
      match Parse(text)
      case None => None
      case Some(v) =>
        match Member(v, HEADER)
        case None => None
        case Some(header) =>
          match (StringAt(header, ID), PayloadOf(v))
          case (Some(id), Some(payload)) => Some(Response(id, payload))
          case _ => None
  }

  lemma EncodedIsPlain(b: Bytes)
    ensures Plain(Base64.Encode(b))
  {
    Base64.EncodedShape(b);
  }

  lemma {:induction false} SetKeepsPlain(m: Members, key: Bytes, value: Value)
    requires PlainMembers(m) && Plain(key) && PlainValue(value)
    ensures PlainMembers(Set(m, key, value))
  {
    hide Less;
    if m.Member? {
      SetKeepsPlain(m.rest, key, value);
    }
  }

  /** With base62 ids and channels and base64 payloads, no frame needs a JSON escape. */
  lemma FramesNeedNoEscape(f: Request, g: Response)
    ensures Base62(f.id) && Base62(f.responseChannel) ==> PlainValue(RequestValue(f))
    ensures Base62(g.id) ==> PlainValue(ResponseValue(g))
  {
    EncodedIsPlain(f.payload);
    EncodedIsPlain(g.payload);
    assert Plain(HEADER) && Plain(PAYLOAD) && Plain(ID) && Plain(RESPONSE_CHANNEL) && Plain(VALID_UNTIL);
    hide Set, Base64.Encode;
    if Base62(f.id) && Base62(f.responseChannel) {
      assert Plain(f.id) && Plain(f.responseChannel);
      var one := Set(Empty, RESPONSE_CHANNEL, Str(f.responseChannel));
      SetKeepsPlain(Empty, RESPONSE_CHANNEL, Str(f.responseChannel));
      SetKeepsPlain(one, ID, Str(f.id));
      var two := Set(one, ID, Str(f.id));
      if f.validUntilMs.Some? {
        SetKeepsPlain(two, VALID_UNTIL, Num(f.validUntilMs.value));
      }
      var header := if f.validUntilMs.Some? then Set(two, VALID_UNTIL, Num(f.validUntilMs.value)) else two;
      PlainFrame(header, f.payload);
    }
    if Base62(g.id) {
      assert Plain(g.id);
      SetKeepsPlain(Empty, ID, Str(g.id));
      PlainFrame(Set(Empty, ID, Str(g.id)), g.payload);
    }
  }

  /** Header and payload, the outer object of both frames. */
  function Frame(header: Members, payload: Bytes): Value {
    Obj(Set(Set(Empty, HEADER, Obj(header)), PAYLOAD, Str(Base64.Encode(payload))))
  }

  lemma PlainFrame(header: Members, payload: Bytes)
    requires PlainMembers(header)
    ensures PlainValue(Frame(header, payload))
  {
    EncodedIsPlain(payload);
    assert Plain(HEADER) && Plain(PAYLOAD);
    hide Set, Base64.Encode;
    SetKeepsPlain(Empty, HEADER, Obj(header));
    SetKeepsPlain(Set(Empty, HEADER, Obj(header)), PAYLOAD, Str(Base64.Encode(payload)));
  }

  lemma FrameFields(header: Members, payload: Bytes)
    ensures Member(Frame(header, payload), HEADER) == Some(Obj(header))
    ensures PayloadOf(Frame(header, payload)) == Some(payload)
  {
    Base64.RoundTrip(payload);
    hide Set, Base64.Encode, Base64.Decode, Get;
    var inner := Set(Empty, HEADER, Obj(header));
    GetAfterSet(Empty, HEADER, Obj(header), HEADER);
    GetAfterSet(inner, PAYLOAD, Str(Base64.Encode(payload)), HEADER);
    GetAfterSet(inner, PAYLOAD, Str(Base64.Encode(payload)), PAYLOAD);
  }

  /** The three header fields can be read back, whatever the order of the assignments. */
  lemma HeaderFields(f: Request)
    ensures var header := Member(RequestValue(f), HEADER);
      header.Some? && StringAt(header.value, ID) == Some(f.id) && StringAt(header.value, RESPONSE_CHANNEL) == Some(f.responseChannel)
      && Member(header.value, VALID_UNTIL) == match f.validUntilMs case Some(ms) => Some(Num(ms)) case None => None
    ensures PayloadOf(RequestValue(f)) == Some(f.payload)
  {
    hide Set, Get, Base64.Encode;
    var one := Set(Empty, RESPONSE_CHANNEL, Str(f.responseChannel));
    var two := Set(one, ID, Str(f.id));
    forall k ensures Get(two, k)
      == if k == ID then Some(Str(f.id)) else if k == RESPONSE_CHANNEL then Some(Str(f.responseChannel)) else Get(Empty, k)
    {
      GetAfterSet(one, ID, Str(f.id), k);
      GetAfterSet(Empty, RESPONSE_CHANNEL, Str(f.responseChannel), k);
    }
    var header := match f.validUntilMs case Some(ms) => Set(two, VALID_UNTIL, Num(ms)) case None => two;
    if f.validUntilMs.Some? {
      GetAfterSet(two, VALID_UNTIL, Num(f.validUntilMs.value), ID);
      GetAfterSet(two, VALID_UNTIL, Num(f.validUntilMs.value), RESPONSE_CHANNEL);
      GetAfterSet(two, VALID_UNTIL, Num(f.validUntilMs.value), VALID_UNTIL);
    }
    GetFromEmpty();
    FrameFields(header, f.payload);
  }

  lemma GetFromEmpty()
    ensures forall k :: Get(Empty, k) == None
  {
  }

  /** Every request that a sender can build is read back field by field. */
  lemma RequestRoundTrip(f: Request)
    requires Base62(f.id) && Base62(f.responseChannel)
    ensures DecodeRequest(EncodeRequest(f)) == Some(f)
  {
    FramesNeedNoEscape(f, Response(f.id, f.payload));
    RoundTrip(RequestValue(f));
    HeaderFields(f);
    hide RequestValue, Parse, Dump, PlainValue, Base62, StringAt, PayloadOf, Member;
  }

  /** Every response is read back through both layers of base64. */
  lemma ResponseRoundTrip(f: Response)
    requires Base62(f.id)
    ensures DecodeResponse(EncodeResponse(f)) == Some(f)
  {
    FramesNeedNoEscape(Request(f.id, f.id, None, f.payload), f);
    RoundTrip(ResponseValue(f));
    Base64.RoundTrip(Text(ResponseValue(f)));
    GetAfterSet(Empty, ID, Str(f.id), ID);
    FrameFields(Set(Empty, ID, Str(f.id)), f.payload);
    hide Set, Get, Parse, Dump, PlainValue, Base62, PayloadOf, Base64.Encode, Base64.Decode;
  }

  /** Where a broker looks at a response it sees base64 only. */
  lemma ResponseIsBase64(f: Response)
    ensures forall i :: 0 <= i < |EncodeResponse(f)| ==> Base64.InAlphabet(EncodeResponse(f)[i])
  {
    Base64.EncodedShape(Text(ResponseValue(f)));
  }

  /** The wire format of this library, as the codec of the protocol. */
  function WireCodec(): Codec {
    Codec(EncodeRequest, DecodeRequest, EncodeResponse, DecodeResponse)
  }

  lemma WireIsFaithful()
    ensures Faithful(WireCodec())
  {
    hide EncodeRequest, DecodeRequest, EncodeResponse, DecodeResponse, Base62;
    forall f: Request | Base62(f.id) && Base62(f.responseChannel) ensures DecodeRequest(EncodeRequest(f)) == Some(f) {
      RequestRoundTrip(f);
    }
    forall f: Response | Base62(f.id) ensures DecodeResponse(EncodeResponse(f)) == Some(f) {
      ResponseRoundTrip(f);
    }
  }

  lemma KeysAreSorted(f: Request, ms: int)
    requires f.validUntilMs == Some(ms)
    ensures RequestValue(f)
      == Obj(Json.Member(HEADER,
                         Obj(Json.Member(ID, Str(f.id), Json.Member(RESPONSE_CHANNEL, Str(f.responseChannel),
                                         Json.Member(VALID_UNTIL, Num(ms), Empty)))),
                         Json.Member(PAYLOAD, Str(Base64.Encode(f.payload)), Empty)))
  {
    hide Base64.Encode;
    assert Less(ID, RESPONSE_CHANNEL) && !Less(VALID_UNTIL, ID) && !Less(VALID_UNTIL, RESPONSE_CHANNEL) && !Less(PAYLOAD, HEADER);
    assert ID != RESPONSE_CHANNEL && ID != VALID_UNTIL && RESPONSE_CHANNEL != VALID_UNTIL && HEADER != PAYLOAD by {
      assert ID[0] != RESPONSE_CHANNEL[0] && ID[0] != VALID_UNTIL[0] && RESPONSE_CHANNEL[0] != VALID_UNTIL[0] && HEADER[0] != PAYLOAD[0];
    }
    hide Less;
    var rc := Json.Member(RESPONSE_CHANNEL, Str(f.responseChannel), Empty);
    assert forall k, v :: Set(Empty, k, v) == Json.Member(k, v, Empty);
    assert Set(Json.Member(ID, Str(f.id), rc), VALID_UNTIL, Num(ms)) == Json.Member(ID, Str(f.id), Set(rc, VALID_UNTIL, Num(ms)));
    var header := Json.Member(ID, Str(f.id), Set(rc, VALID_UNTIL, Num(ms)));
    var payload := Str(Base64.Encode(f.payload));
    assert Set(Json.Member(HEADER, Obj(header), Empty), PAYLOAD, payload)
      == Json.Member(HEADER, Obj(header), Json.Member(PAYLOAD, payload, Empty));
    assert Set(Empty, RESPONSE_CHANNEL, Str(f.responseChannel)) == rc;
    assert Set(rc, ID, Str(f.id)) == Json.Member(ID, Str(f.id), rc);
    assert Set(rc, VALID_UNTIL, Num(ms)) == Json.Member(RESPONSE_CHANNEL, Str(f.responseChannel), Json.Member(VALID_UNTIL, Num(ms), Empty));
  }

  /** One more member in front of what follows. */
  lemma StringMember(key: Bytes, text: Bytes, rest: Members, comma: bool, tail: Bytes)
    requires Plain(key) && Plain(text) && PlainMembers(rest) && tail == DumpMembers(rest, true)
    ensures DumpMembers(Json.Member(key, Str(text), rest), comma)
      == (if comma then [','] else []) + ['"'] + key + ['"', ':', '"'] + text + ['"'] + tail
  {
    var sep := Separator(comma);
    assert DumpMembers(Json.Member(key, Str(text), rest), comma) == sep + Quote(key) + [':'] + Quote(text) + tail;
    hide DumpMembers, Dump;
    assert sep + Quote(key) + [':'] + Quote(text) == sep + ['"'] + key + ['"', ':', '"'] + text + ['"'];
  }

  /** The header's members of a request, as text. */
  function HeaderLayout(id: Bytes, rc: Bytes, ms: int): Bytes {
    ['"'] + ID + ['"', ':', '"'] + id + ['"']
      + ([','] + ['"'] + RESPONSE_CHANNEL + ['"', ':', '"'] + rc + ['"']
         + ([','] + ['"'] + VALID_UNTIL + ['"'] + [':'] + DumpInt(ms) + ['}']))
  }

  lemma HeaderText(id: Bytes, rc: Bytes, ms: int)
    requires Plain(id) && Plain(rc)
    ensures
      var header := Json.Member(ID, Str(id), Json.Member(RESPONSE_CHANNEL, Str(rc), Json.Member(VALID_UNTIL, Num(ms), Empty)));
      PlainMembers(header) && DumpMembers(header, false) == HeaderLayout(id, rc, ms)
  {
    assert Plain(ID) && Plain(RESPONSE_CHANNEL) && Plain(VALID_UNTIL);
    var m3 := Json.Member(VALID_UNTIL, Num(ms), Empty);
    var m2 := Json.Member(RESPONSE_CHANNEL, Str(rc), m3);
    assert PlainMembers(m3) by { assert PlainMembers(Empty) && PlainValue(Num(ms)); }
    assert PlainMembers(m2) by { assert PlainValue(Str(rc)); }
    assert PlainMembers(Json.Member(ID, Str(id), m2)) by { assert PlainValue(Str(id)); }
    assert DumpMembers(Empty, true) == ['}'] && Separator(true) == [','];
    assert DumpMembers(m3, true) == [','] + Quote(VALID_UNTIL) + [':'] + DumpInt(ms) + ['}'];
    assert [','] + Quote(VALID_UNTIL) == [','] + ['"'] + VALID_UNTIL + ['"'];
    StringMember(RESPONSE_CHANNEL, rc, m3, true, DumpMembers(m3, true));
    StringMember(ID, id, m2, false, DumpMembers(m2, true));
    hide DumpMembers, Quote, DumpInt, Plain, PlainMembers, PlainValue;
    assert [] + ['"'] == ['"'];
  }

  lemma RequestLayout(f: Request, ms: int)
    requires Base62(f.id) && Base62(f.responseChannel) && f.validUntilMs == Some(ms)
    ensures EncodeRequest(f)
      == ['{'] + (['"'] + HEADER + ['"'] + [':'] + (['{'] + HeaderLayout(f.id, f.responseChannel, ms))
         + ([','] + ['"'] + PAYLOAD + ['"', ':', '"'] + Base64.Encode(f.payload) + ['"'] + ['}']))
  {
    FramesNeedNoEscape(f, Response(f.id, f.payload));
    KeysAreSorted(f, ms);
    EncodedIsPlain(f.payload);
    assert Plain(f.id) && Plain(f.responseChannel) && Plain(HEADER) && Plain(PAYLOAD);
    HeaderText(f.id, f.responseChannel, ms);
    var payload := Base64.Encode(f.payload);
    var m1 := Json.Member(ID, Str(f.id), Json.Member(RESPONSE_CHANNEL, Str(f.responseChannel), Json.Member(VALID_UNTIL, Num(ms), Empty)));
    var p := Json.Member(PAYLOAD, Str(payload), Empty);
    assert PlainValue(Obj(m1)) && PlainMembers(p);
    hide RequestValue, HeaderLayout, Base62, Set;
    OuterText(m1, payload);
    hide DumpMembers, Dump, Plain, PlainValue, PlainMembers;
  }

  /**
   The text of a request: sorted keys, no white space, the deadline in plain decimal, and only the payload encoded.
   */
  lemma RequestText(f: Request, ms: int)
    requires Base62(f.id) && Base62(f.responseChannel) && f.validUntilMs == Some(ms)
    ensures EncodeRequest(f)
      == "{\"header\":{\"id\":\"" + f.id + "\",\"response_channel\":\"" + f.responseChannel + "\",\"valid_until\":" + DumpInt(ms)
         + "},\"payload\":\"" + Base64.Encode(f.payload) + "\"}"
    ensures JsonTheorems.IsInteger(DumpInt(ms), ms)
  {
    RequestLayout(f, ms);
    JsonTheorems.DumpIntIsInteger(ms);
    hide *;
    RequestPieces(f.id, f.responseChannel, DumpInt(ms), Base64.Encode(f.payload));
  }

  lemma Glue(
      a: Bytes, b: Bytes, i: Bytes, q: Bytes, r: Bytes, v: Bytes, e: Bytes, y: Bytes, id: Bytes, rc: Bytes, num: Bytes, payload: Bytes)
    ensures b + (a + (b + (i + id + q + (r + rc + q + (v + num + e)))) + (y + payload + q + e))
      == b + a + b + i + id + (q + r) + rc + (q + v) + num + (e + y) + payload + (q + e)
  {
    var number := v + num + e;
    Associate(i + id, q, r + rc + q + number);
    Associate(q, r + rc, q + number);
    Associate(r + rc, q, number);
  }

  lemma Associate(a: Bytes, b: Bytes, c: Bytes)
    ensures a + (b + c) == a + b + c
  {
  }

  lemma RequestLiterals()
    ensures ['{'] + (['"'] + HEADER + ['"'] + [':']) + ['{'] + (['"'] + ID + ['"', ':', '"']) == "{\"header\":{\"id\":\""
    ensures ['"'] + ([','] + ['"'] + RESPONSE_CHANNEL + ['"', ':', '"']) == "\",\"response_channel\":\""
    ensures ['"'] + ([','] + ['"'] + VALID_UNTIL + ['"'] + [':']) == "\",\"valid_until\":"
    ensures ['}'] + ([','] + ['"'] + PAYLOAD + ['"', ':', '"']) == "},\"payload\":\""
    ensures ['"'] + ['}'] == "\"}"
  {
  }

  lemma RequestPieces(id: Bytes, rc: Bytes, number: Bytes, payload: Bytes)
    ensures ['{'] + (['"'] + HEADER + ['"'] + [':'] + (['{'] + (['"'] + ID + ['"', ':', '"'] + id + ['"']
        + ([','] + ['"'] + RESPONSE_CHANNEL + ['"', ':', '"'] + rc + ['"'] + ([','] + ['"'] + VALID_UNTIL + ['"'] + [':'] + number + ['}']))))
        + ([','] + ['"'] + PAYLOAD + ['"', ':', '"'] + payload + ['"'] + ['}']))
      == "{\"header\":{\"id\":\"" + id + "\",\"response_channel\":\"" + rc + "\",\"valid_until\":" + number
         + "},\"payload\":\"" + payload + "\"}"
  {
    RequestLiterals();
    Glue(['"'] + HEADER + ['"'] + [':'], ['{'], ['"'] + ID + ['"', ':', '"'], ['"'], [','] + ['"'] + RESPONSE_CHANNEL + ['"', ':', '"'],
         [','] + ['"'] + VALID_UNTIL + ['"'] + [':'], ['}'], [','] + ['"'] + PAYLOAD + ['"', ':', '"'], id, rc, number, payload);
  }

  lemma OuterText(header: Members, payload: Bytes)
    requires PlainMembers(header) && Plain(payload) && Plain(HEADER) && Plain(PAYLOAD)
    ensures var v := Obj(Json.Member(HEADER, Obj(header), Json.Member(PAYLOAD, Str(payload), Empty)));
      PlainValue(v)
      && Dump(v) == ['{'] + (['"'] + HEADER + ['"'] + [':'] + (['{'] + DumpMembers(header, false))
                             + ([','] + ['"'] + PAYLOAD + ['"', ':', '"'] + payload + ['"'] + ['}']))
  {
    var p := Json.Member(PAYLOAD, Str(payload), Empty);
    var m := Json.Member(HEADER, Obj(header), p);
    assert DumpMembers(Empty, true) == ['}'] && Separator(false) == [];
    StringMember(PAYLOAD, payload, Empty, true, ['}']);
    assert PlainValue(Obj(header)) && PlainMembers(p);
    assert Dump(Obj(header)) == ['{'] + DumpMembers(header, false);
    assert DumpMembers(m, false) == [] + Quote(HEADER) + [':'] + Dump(Obj(header)) + DumpMembers(p, true);
    assert Dump(Obj(m)) == ['{'] + DumpMembers(m, false);
    assert [] + Quote(HEADER) == ['"'] + HEADER + ['"'];
    hide DumpMembers, Dump, Quote, Plain, PlainValue, PlainMembers;
  }

  lemma ResponseLayout(f: Response)
    requires Base62(f.id)
    ensures EncodeResponse(f)
      == Base64.Encode(['{'] + (['"'] + HEADER + ['"'] + [':'] + (['{'] + (['"'] + ID + ['"', ':', '"'] + f.id + ['"'] + ['}']))
                       + ([','] + ['"'] + PAYLOAD + ['"', ':', '"'] + Base64.Encode(f.payload) + ['"'] + ['}'])))
  {
    FramesNeedNoEscape(Request(f.id, f.id, None, f.payload), f);
    EncodedIsPlain(f.payload);
    assert Plain(f.id) && Plain(HEADER) && Plain(PAYLOAD) && Plain(ID);
    var payload := Base64.Encode(f.payload);
    var header := Json.Member(ID, Str(f.id), Empty);
    assert ResponseValue(f) == Obj(Json.Member(HEADER, Obj(header), Json.Member(PAYLOAD, Str(payload), Empty))) by {
      assert HEADER[0] != PAYLOAD[0] && !Less(PAYLOAD, HEADER);
      assert forall k, v :: Set(Empty, k, v) == Json.Member(k, v, Empty);
      assert Set(Json.Member(HEADER, Obj(header), Empty), PAYLOAD, Str(payload))
        == Json.Member(HEADER, Obj(header), Json.Member(PAYLOAD, Str(payload), Empty));
    }
    assert DumpMembers(Empty, true) == ['}'];
    StringMember(ID, f.id, Empty, false, ['}']);
    assert [] + ['"'] == ['"'];
    hide ResponseValue, Set, Base62, Plain, Base64.Encode;
    OuterText(header, payload);
    hide DumpMembers, Dump, PlainValue, PlainMembers;
  }

  lemma GlueResponse(a: Bytes, b: Bytes, i: Bytes, q: Bytes, e: Bytes, y: Bytes, id: Bytes, payload: Bytes)
    ensures b + (a + (b + (i + id + q + e)) + (y + payload + q + e)) == b + a + b + i + id + (q + e + y) + payload + (q + e)
  {
    Associate(i + id, q, e);
    Associate(b + a + b + i + id, q, e + (y + payload + (q + e)));
  }

  /** The text inside a published response, which is encoded as a whole. */
  lemma ResponseText(f: Response)
    requires Base62(f.id)
    ensures EncodeResponse(f)
      == Base64.Encode("{\"header\":{\"id\":\"" + f.id + "\"},\"payload\":\"" + Base64.Encode(f.payload) + "\"}")
  {
    ResponseLayout(f);
    hide *;
    ResponsePieces(f.id, Base64.Encode(f.payload));
  }

  lemma ResponsePieces(id: Bytes, payload: Bytes)
    ensures ['{'] + (['"'] + HEADER + ['"'] + [':'] + (['{'] + (['"'] + ID + ['"', ':', '"'] + id + ['"'] + ['}']))
        + ([','] + ['"'] + PAYLOAD + ['"', ':', '"'] + payload + ['"'] + ['}']))
      == "{\"header\":{\"id\":\"" + id + "\"},\"payload\":\"" + payload + "\"}"
  {
    RequestLiterals();
    assert ['"'] + ['}'] + ([','] + ['"'] + PAYLOAD + ['"', ':', '"']) == "\"},\"payload\":\"";
    GlueResponse(['"'] + HEADER + ['"'] + [':'], ['{'], ['"'] + ID + ['"', ':', '"'], ['"'], ['}'],
                 [','] + ['"'] + PAYLOAD + ['"', ':', '"'], id, payload);
  }

  /** The request frame as a whole is not base64, whatever the repository's README says: no decoder would accept it. */
  lemma RequestIsNotBase64(f: Request, ms: int)
    requires Base62(f.id) && Base62(f.responseChannel) && f.validUntilMs == Some(ms)
    ensures Base64.Decode(EncodeRequest(f)) == None
  {
    RequestLayout(f, ms);
    hide EncodeRequest, HeaderLayout, Base64.Encode;
    var s := EncodeRequest(f);
    assert s[0] == '{' && |s| > 4;
    assert Base64.DecodeQuad(s[..4]) == None;
  }

  /** The value is an object with these texts in its header, and a payload whose base64 denotes the bytes b. */
  ghost predicate HasFields(v: Value, header: Members, id: Bytes, b: Bytes) {
    && v.Obj? && Get(v.members, "header") == Some(Obj(header)) && Get(header, "id") == Some(Str(id))
    && exists text: Bytes :: Get(v.members, "payload") == Some(Str(text)) && Base64Theorems.Denotes(text, b)
  }

  lemma PayloadIff(v: Value, b: Bytes)
    requires v.Obj?
    ensures PayloadOf(v) == Some(b)
      <==> exists text: Bytes :: Get(v.members, "payload") == Some(Str(text)) && Base64Theorems.Denotes(text, b)
  {
    var found := Get(v.members, "payload");
    if found.Some? && found.value.Str? {
      Base64Theorems.DecodeIff(found.value.text, b);
    }
    hide Base64.Decode, Base64Theorems.Denotes, Get;
  }

  ghost predicate IsRequest(v: Value, header: Members, f: Request) {
    && HasFields(v, header, f.id, f.payload)
    && Get(header, "response_channel") == Some(Str(f.responseChannel))
    && Get(header, "valid_until") == match f.validUntilMs case Some(ms) => Some(Num(ms)) case None => None
  }

  /** The header is read as an object, if anything is read from it. */
  lemma RequestHasFields(s: Bytes, f: Request) returns (header: Members)
    requires DecodeRequest(s) == Some(f)
    ensures Parse(s).Some? && IsRequest(Parse(s).value, header, f)
  {
    var v := Parse(s).value;
    header := Get(v.members, HEADER).value.members;
    PayloadIff(v, f.payload);
    hide Parse, Get, PayloadOf, Base64Theorems.Denotes, Base64.Decode;
  }

  lemma FieldsMakeRequest(s: Bytes, v: Value, header: Members, f: Request)
    requires Parse(s) == Some(v) && IsRequest(v, header, f)
    ensures DecodeRequest(s) == Some(f)
  {
    PayloadIff(v, f.payload);
    hide Parse, Get, PayloadOf, Base64Theorems.Denotes, Base64.Decode;
    var h := Obj(header);
    assert Member(v, HEADER) == Some(h) && StringAt(h, ID) == Some(f.id) && StringAt(h, RESPONSE_CHANNEL) == Some(f.responseChannel);
    assert PayloadOf(v) == Some(f.payload);
    assert Member(h, VALID_UNTIL) == match f.validUntilMs case Some(ms) => Some(Num(ms)) case None => None;
    hide Member, StringAt, HasFields, IsRequest;
  }

  /**
   Which frames the request handler accepts, and as what: JSON objects with the two texts in the header, a payload in base64,
   and, if the header has a deadline at all, a number for it.
   */
  lemma DecodeRequestIff(s: Bytes, f: Request)
    ensures DecodeRequest(s) == Some(f)
      <==> Parse(s).Some? && exists header: Members :: IsRequest(Parse(s).value, header, f)
  {
    hide *;
    if DecodeRequest(s) == Some(f) {
      var header := RequestHasFields(s, f);
    }
    if Parse(s).Some? {
      forall header: Members | IsRequest(Parse(s).value, header, f) ensures DecodeRequest(s) == Some(f) {
        FieldsMakeRequest(s, Parse(s).value, header, f);
      }
    }
  }

  /** The text is that of an object with a response's fields. */
  ghost predicate IsResponse(text: Bytes, f: Response) {
    Parse(text).Some? && exists header: Members :: HasFields(Parse(text).value, header, f.id, f.payload)
  }

  lemma ResponseHasFields(s: Bytes, f: Response)
    requires DecodeResponse(s) == Some(f)
    ensures Base64.Decode(s).Some? && IsResponse(Base64.Decode(s).value, f)
  {
    var v := Parse(Base64.Decode(s).value).value;
    var header := Get(v.members, HEADER).value.members;
    PayloadIff(v, f.payload);
    hide Parse, Get, PayloadOf, Base64Theorems.Denotes, Base64.Decode;
    assert HasFields(v, header, f.id, f.payload);
  }

  lemma FieldsMakeResponse(s: Bytes, text: Bytes, f: Response)
    requires Base64.Decode(s) == Some(text) && IsResponse(text, f)
    ensures DecodeResponse(s) == Some(f)
  {
    var v := Parse(text).value;
    PayloadIff(v, f.payload);
    hide Parse, Get, PayloadOf, Base64Theorems.Denotes, Base64.Decode;
  }

  /** And which responses the transaction interface accepts, through the subscriber's decoding. */
  lemma DecodeResponseIff(s: Bytes, f: Response)
    ensures DecodeResponse(s) == Some(f) <==> exists text: Bytes :: Base64Theorems.Denotes(s, text) && IsResponse(text, f)
  {
    hide *;
    if DecodeResponse(s) == Some(f) {
      ResponseHasFields(s, f);
      Base64Theorems.DecodeIff(s, Base64.Decode(s).value);
    }
    forall text: Bytes | Base64Theorems.Denotes(s, text) && IsResponse(text, f) ensures DecodeResponse(s) == Some(f) {
      Base64Theorems.DecodeIff(s, text);
      FieldsMakeResponse(s, text, f);
    }
  }
}

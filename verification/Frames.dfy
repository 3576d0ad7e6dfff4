/** The two message frames of the transaction system, and what a codec for them has to provide. */
module Frames {
  import opened Common

  type Id = Bytes
  type Channel = Bytes

  /** header.id, header.response_channel, header.valid_until (may be absent), payload. */
  datatype Request = Request(id: Id, responseChannel: Channel, validUntilMs: Option<int>, payload: Bytes)

  /** header.id and payload. */
  datatype Response = Response(id: Id, payload: Bytes)

  predicate Base62Char(c: char) {
    'a' <= c <= 'z' || 'A' <= c <= 'Z' || '0' <= c <= '9'
  }

  /** The shape of every id and response channel: both are base62 renderings of a UUID. */
  predicate Base62(s: Bytes) {
    forall i :: 0 <= i < |s| ==> Base62Char(s[i])
  }

  datatype Codec = Codec(
    encodeRequest: Request -> Bytes, decodeRequest: Bytes -> Option<Request>,
    encodeResponse: Response -> Bytes, decodeResponse: Bytes -> Option<Response>)

  /** Decoding gives back what was encoded. */
  ghost predicate Faithful(k: Codec) {
    && (forall f: Request :: Base62(f.id) && Base62(f.responseChannel) && f.validUntilMs.Some?
          ==> k.decodeRequest(k.encodeRequest(f)) == Some(f))
    && (forall f: Response :: Base62(f.id) ==> k.decodeResponse(k.encodeResponse(f)) == Some(f))
  }
}

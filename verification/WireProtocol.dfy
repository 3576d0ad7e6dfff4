/** The protocol's guarantees over the library's own wire format. */
module WireProtocol {
  import opened Common
  import opened Frames
  import opened Protocol
  import Promise
  import ProtocolTheorems
  import Wire

  /** Correlation with the JSON and base64 frames on the wire: no assumption about a codec is left. */
  lemma WireCorrelation(filtering: bool, now: int, ls: seq<Label>, id: Id, r: Promise.Reader, m: Bytes)
    requires Run(Wire.WireCodec(), filtering, now, ls).Some?
    requires var c := Run(Wire.WireCodec(), filtering, now, ls).value.core;
      id in c.sends && c.sends[id].addr in c.promises
      && Promise.At(c.promises[c.sends[id].addr].p, r, Promise.Returned(Promise.Answer(m)))
    ensures exists i, timeout, rc, ch, payload, addr ::
      && 0 <= i < |ls| && ls[i] == Client(Create(id, rc, ch, payload, timeout, addr))
      && CallRecord(id, ch, payload, m) in Run(Wire.WireCodec(), filtering, now, ls).value.hist.calls
    ensures forall call :: call in Run(Wire.WireCodec(), filtering, now, ls).value.hist.calls && call.id == id ==> call.result == m
  {
    Wire.WireIsFaithful();
    ProtocolTheorems.Correlation(Wire.WireCodec(), filtering, now, ls, id, r, m);
  }

  /** At most once, and every frame on the wire decodes. */
  lemma WireAtMostOnce(filtering: bool, now: int, ls: seq<Label>)
    requires Run(Wire.WireCodec(), filtering, now, ls).Some?
    ensures var s := Run(Wire.WireCodec(), filtering, now, ls).value;
      && !s.hist.broken && NoDup(s.hist.responded)
      && (forall i, j :: 0 <= i < j < |s.hist.calls| ==> s.hist.calls[i].id != s.hist.calls[j].id)
      && (forall a :: a in s.core.promises ==> !s.core.promises[a].p.misused)
  {
    Wire.WireIsFaithful();
    ProtocolTheorems.NothingBreaks(Wire.WireCodec(), filtering, now, ls);
    ProtocolTheorems.AtMostOnce(Wire.WireCodec(), filtering, now, ls);
  }
}

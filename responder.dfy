/**
 * respond (application.go, lines 69-87): resolve the implicit status, write the
 * header, then write the body according to its dynamic type.
 *
 * setImplicit is not part of this model: it appears as `resolve`, an arbitrary
 * function of the current status and body.  json.Marshal appears as `marshal`,
 * an arbitrary partial function (None for the error it may return).
 */
module Responder {
  import opened Wrappers
  import opened Http

  /** The bytes respond writes for a body: None only when the JSON encoder fails. */
  function Payload(body: Body, marshal: Value -> Option<seq<byte>>): (r: Option<seq<byte>>)
    ensures body.Bytes? ==> r == Some(body.data)
    ensures body.Text? ==> r == Some(body.text)
    ensures body.Other? ==> r == marshal(body.value)
    ensures r.None? <==> body.Other? && marshal(body.value).None?
  {
    match body
    case Bytes(b) => Some(b)
    case Text(t) => Some(t)
    case Other(v) => marshal(v)
  }

  /** The response's status, the writer's events, and whether the dispatch panicked. */
  datatype Finished = Finished(status: int, out: seq<Event>, panicked: bool)

  /** What respond does, given the status, the body and what the writer had already received. */
  function Finalize(status: int, body: Body, out: seq<Event>,
                    resolve: (int, Body) -> int, marshal: Value -> Option<seq<byte>>): (r: Finished)
    ensures r.status == resolve(status, body)
    ensures |out| < |r.out| && r.out[..|out|] == out && r.out[|out|] == WriteHeader(r.status)
    ensures r.panicked <==> Payload(body, marshal).None?
    ensures r.panicked ==> |r.out| == |out| + 1
    ensures !r.panicked ==> |r.out| == |out| + 2 && r.out[|out| + 1] == Write(Payload(body, marshal).value)
  {
    var s := resolve(status, body);
    var header := out + [WriteHeader(s)];
    match Payload(body, marshal)
    case None => Finished(s, header, true)
    case Some(b) => Finished(s, header + [Write(b)], false)
  }

  /** A body given as bytes reaches the writer verbatim, after the header, whatever the encoder. */
  lemma BytesVerbatim(status: int, data: seq<byte>, out: seq<Event>,
                      resolve: (int, Body) -> int, marshal: Value -> Option<seq<byte>>)
    ensures var r := Finalize(status, Bytes(data), out, resolve, marshal);
      !r.panicked && r.out == out + [WriteHeader(resolve(status, Bytes(data))), Write(data)]
  {
  }

  /** respond itself, on the Response object. */
  method Respond(res: Response, resolve: (int, Body) -> int, marshal: Value -> Option<seq<byte>>)
    returns (panicked: bool)
    modifies res, res.writer
    ensures res.writer == old(res.writer)
    ensures res.body == old(res.body) && res.dontRespond == old(res.dontRespond) && res.request == old(res.request)
    ensures Finished(res.status, res.writer.events, panicked)
         == Finalize(old(res.status), old(res.body), old(res.writer.events), resolve, marshal)
  {
    res.status := resolve(res.status, res.body);
    res.writer.events := res.writer.events + [WriteHeader(res.status)];
    match res.body
    case Bytes(b) =>
      res.writer.events := res.writer.events + [Write(b)];
      panicked := false;
    case Text(t) =>
      res.writer.events := res.writer.events + [Write(t)];
      panicked := false;
    case Other(v) =>
      var encoded := marshal(v);
      if encoded.None? {
        panicked := true;
      } else {
        res.writer.events := res.writer.events + [Write(encoded.value)];
        panicked := false;
      }
  }
}

/** A whole request on its way: request_start, body and request_end from the stub, and what the worker
    makes of them for the backend. */
module Uploads {
  import opened Strings
  import opened Frames
  import opened Chunked
  import opened Tunnel

  /** contentLength is negative for a body of unknown length. */
  datatype Request = Request(verb: string, path: string, contentLength: int, body: seq<ReadStep>)

  function Start(q: Request): Message
  {
    RequestStart(q.verb, q.path, q.contentLength)
  }

  function SentFrames(json: Codec, q: Request): seq<Frame>
  {
    [Frame(TEXT, json.enc(Start(q)))] + RequestFrames(json, q.body)
  }

  /** The HTTP server hands out exactly the declared number of bytes before it reports the end. */
  ghost predicate GoodRequest(json: Codec, q: Request)
  {
    && Carries(json, Start(q)) && Carries(json, RequestEnd) && GoodSteps(q.body)
    && (q.contentLength >= 0 ==> |Delivered(q.body)| <= q.contentLength)
    && (q.contentLength >= 0 && Ending(q.body).Eof? ==> |Delivered(q.body)| == q.contentLength)
  }

  /** A request body as the backend gets it: with the length its head declares, or chunked. */
  datatype Upload = Upload(contentLength: int, bytes: seq<byte>)

  /** What the worker has written for the frames it has read. */
  function Forwarded(json: Codec, frames: seq<Frame>): Option<Upload>
  {
    if frames == [] || frames[0].opcode != TEXT then None
    else
      var m := json.dec(frames[0].payload);
      if m.None? || !m.value.RequestStart? then None
      else Some(Upload(m.value.contentLength, PumpedFor(m.value.contentLength, frames[1..])))
  }

  /** The pump is only started if there is a body, and codes it in chunks if its length is not known. */
  function PumpedFor(contentLength: int, frames: seq<Frame>): seq<byte>
  {
    if contentLength == 0 then [] else Pumped(frames, contentLength < 0)
  }

  /** How a backend reads a request body, by section 6.3 of RFC 9112. */
  function BackendReads(u: Upload): Decoded
  {
    if u.contentLength < 0 then DecodeChunked(u.bytes)
    else if |u.bytes| < u.contentLength then Partial(u.bytes)
    else Complete(u.bytes[..u.contentLength], u.bytes[u.contentLength..])
  }

  lemma SentFacts(json: Codec, q: Request, keys: Keys, k: nat)
    requires GoodRequest(json, q) && GoodKeys(keys) && k <= |Wire(SentFrames(json, q), true, keys, 0)|
    ensures Transmittable(SentFrames(json, q))
    ensures var arrived := DecodeAll(Wire(SentFrames(json, q), true, keys, 0)[..k]);
            && arrived <= SentFrames(json, q)
            && (k == |Wire(SentFrames(json, q), true, keys, 0)| ==> arrived == SentFrames(json, q))
  {
    hide Wire, DecodeAll, RequestFrames;
    RequestFramesFacts(json, q.body);
    CutWire(SentFrames(json, q), true, keys, k);
  }

  /** The frames after request_start carry a part of the body, and no close frame. */
  lemma BodyArrived(json: Codec, q: Request, arrived: seq<Frame>)
    requires GoodRequest(json, q) && arrived <= SentFrames(json, q) && arrived != []
    ensures json.dec(arrived[0].payload) == Some(RequestStart(q.verb, q.path, q.contentLength))
    ensures Forwarded(json, arrived) == Some(Upload(q.contentLength, PumpedFor(q.contentLength, arrived[1..])))
    ensures BodyOf(arrived[1..]) <= Delivered(q.body) && !HasClose(arrived[1..])
    ensures arrived == SentFrames(json, q) ==> BodyOf(arrived[1..]) == Delivered(q.body)
  {
    hide RequestFrames;
    var rest := RequestFrames(json, q.body);
    assert SentFrames(json, q)[1..] == rest && arrived[0] == SentFrames(json, q)[0];
    RequestFramesFacts(json, q.body);
    assert arrived[1..] <= rest;
    BodyOfPrefix(arrived[1..], rest);
    NoCloseInPrefix(arrived[1..], rest);
  }

  /** A body of declared length: at every moment the backend has a prefix of it, and it reads the message
      as complete exactly when it has all of it. */
  lemma RequestConservation(json: Codec, q: Request, arrived: seq<Frame>)
    requires GoodRequest(json, q) && q.contentLength >= 0 && arrived <= SentFrames(json, q) && arrived != []
    ensures var u := Forwarded(json, arrived).value;
            && u.bytes <= Delivered(q.body)
            && (arrived == SentFrames(json, q) ==> u.bytes == Delivered(q.body))
            && BackendReads(u) == if |u.bytes| == q.contentLength then Complete(Delivered(q.body), [])
                 else Partial(u.bytes)
  {
    hide Forwarded, RequestFrames;
    BodyArrived(json, q, arrived);
    PlainPump(arrived[1..]);
    var u := Forwarded(json, arrived).value;
    assert |u.bytes| == q.contentLength ==> u.bytes == Delivered(q.body);
  }

  /** A body of unknown length is sent chunked. The stub ends it with a text message, while the worker
      waits for a close frame: what the backend gets is well formed, holds a prefix of the body, and is
      never complete. */
  lemma ChunkedUploadNeverCompletes(json: Codec, q: Request, arrived: seq<Frame>)
    requires GoodRequest(json, q) && q.contentLength < 0 && arrived <= SentFrames(json, q) && arrived != []
    ensures var u := Forwarded(json, arrived).value;
            && BackendReads(u).Partial? && BackendReads(u).body <= Delivered(q.body)
            && (arrived == SentFrames(json, q) ==> BackendReads(u).body == Delivered(q.body))
  {
    hide Forwarded, RequestFrames, DecodeChunked;
    BodyArrived(json, q, arrived);
    ChunkedPump(arrived[1..]);
  }

  /** However the client's Reads go and however far the connection has got, the backend has a prefix of the
      body; and once request_end has arrived, it has a complete message if and only if the client declared
      the length. */
  lemma UploadCompletesIff(json: Codec, q: Request, keys: Keys, k: nat)
    requires GoodRequest(json, q) && GoodKeys(keys) && k <= |Wire(SentFrames(json, q), true, keys, 0)|
    ensures var arrived := DecodeAll(Wire(SentFrames(json, q), true, keys, 0)[..k]);
            var u := Forwarded(json, arrived);
            && (u.Some? <==> arrived != [])
            && (arrived != [] ==>
                  json.dec(arrived[0].payload) == Some(RequestStart(q.verb, q.path, q.contentLength)))
            && (u.Some? ==> !BackendReads(u.value).Malformed? && BackendReads(u.value).body <= Delivered(q.body))
            && (arrived == SentFrames(json, q) && Ending(q.body).Eof? ==>
                  (BackendReads(u.value).Complete? <==> q.contentLength >= 0))
            && (k == |Wire(SentFrames(json, q), true, keys, 0)| ==> arrived == SentFrames(json, q))
  {
    assert SentFrames(json, q) != [];
    hide DecodeAll, Wire, SentFrames, BackendReads;
    SentFacts(json, q, keys, k);
    var arrived := DecodeAll(Wire(SentFrames(json, q), true, keys, 0)[..k]);
    if arrived != [] {
      BodyArrived(json, q, arrived);
      hide Forwarded;
      if q.contentLength >= 0 {
        RequestConservation(json, q, arrived);
      } else {
        ChunkedUploadNeverCompletes(json, q, arrived);
      }
    }
  }

  // ---------------------------------------------------------------- the two ends

  /** The request half of the stub's handleHTTP. */
  method SendRequest(json: Codec, q: Request, conn: Conn, keys: Keys)
    requires GoodRequest(json, q) && GoodKeys(keys) && conn.out == []
    modifies conn`out
    ensures conn.out == Wire(SentFrames(json, q), conn.mask, keys, 0)
  {
    hide Wire, RequestFrames;
    NothingOnWire(conn.mask, keys);
    var start := Frame(TEXT, json.enc(Start(q)));
    Send(conn, start, keys, 0, []);
    assert [] + [start] == [start];
    PumpBody(json, q.body, conn, keys, 1, [start]);
  }

  /** The request half of handleHTTPTunnel, after ReadRequestStart: None when that fails. */
  method ForwardRequest(json: Codec, conn: Conn) returns (u: Option<Upload>)
    modifies conn`incoming
    ensures u == Forwarded(json, DecodeAll(Joined(old(conn.incoming))))
  {
    ghost var all := Joined(conn.incoming);
    var r := conn.ReadFrame();
    if !r.Arrived? || r.frame.opcode != TEXT {
      return None;
    }
    var m := json.dec(r.frame.payload);
    if m.None? || !m.value.RequestStart? {
      return None;
    }
    var n := m.value.contentLength;
    var bytes: seq<byte> := [];
    assert DecodeAll(all) == [r.frame] + DecodeAll(Joined(conn.incoming));
    if n != 0 {
      bytes := PumpToConn(conn, n < 0);
    }
    return Some(Upload(n, bytes));
  }
}

/** The tunnel between stub and worker: request bodies one way, responses the other. */
module Tunnel {
  import opened Strings
  import opened Frames
  import opened Chunked

  // ---------------------------------------------------------------- messages

  type Headers = map<string, seq<string>>

  datatype Head = Head(status: int, header: Headers)

  datatype Message =
    | RequestStart(verb: string, path: string, contentLength: int)
    | RequestEnd
    | ResponseStart(head: Head)

  /** JSON as a pair of functions. */
  datatype Codec = Codec(enc: Message -> seq<byte>, dec: seq<byte> -> Option<Message>)

  /** JSON reads this message back, and it fits a frame. */
  ghost predicate Carries(json: Codec, m: Message)
  {
    json.dec(json.enc(m)) == Some(m) && |json.enc(m)| < MAX_LENGTH
  }

  /** Masking keys for the frames a client sends, in order. */
  type Keys = nat -> seq<byte>

  ghost predicate GoodKeys(keys: Keys)
  {
    forall i :: IsKey(keys(i))
  }

  /** Frames as a masking or a plain end puts them on the wire, the first being number `from`. */
  function OnWire(frames: seq<Frame>, mask: bool, keys: Keys, from: nat): (os: seq<Outgoing>)
    ensures |os| == |frames|
    ensures forall i :: 0 <= i < |os| ==> os[i] == Outgoing(frames[i], if mask then Some(keys(from + i)) else None)
    decreases |frames|
  {
    if frames == [] then []
    else [Outgoing(frames[0], if mask then Some(keys(from)) else None)] + OnWire(frames[1..], mask, keys, from + 1)
  }

  ghost predicate Transmittable(frames: seq<Frame>)
  {
    forall i :: 0 <= i < |frames| ==> |frames[i].payload| < MAX_LENGTH && frames[i].opcode < 16
  }

  lemma WireIsSeen(frames: seq<Frame>, mask: bool, keys: Keys, from: nat)
    requires Transmittable(frames) && GoodKeys(keys)
    ensures AllSendable(OnWire(frames, mask, keys, from))
    ensures SeenAll(OnWire(frames, mask, keys, from)) == frames
  {
    hide Low4;
    var os := OnWire(frames, mask, keys, from);
    forall i | 0 <= i < |frames| ensures Seen(os[i]) == frames[i] {
      LowOpcode(frames[i].opcode);
    }
    SeenOneByOne(os, frames);
  }

  lemma {:induction false} SeenOneByOne(os: seq<Outgoing>, frames: seq<Frame>)
    requires |os| == |frames| && forall i :: 0 <= i < |os| ==> Seen(os[i]) == frames[i]
    ensures SeenAll(os) == frames
  {
    hide Seen;
    if os != [] {
      SeenOneByOne(os[1..], frames[1..]);
      assert [frames[0]] + frames[1..] == frames;
    }
  }

  lemma LowOpcode(b: byte)
    requires b < 16
    ensures Low4(b) == b
  {
  }

  /** The bytes of these frames on the wire, if they can be sent at all. */
  ghost function Wire(frames: seq<Frame>, mask: bool, keys: Keys, from: nat): seq<byte>
  {
    if !Transmittable(frames) || !GoodKeys(keys) then []
    else
      WireIsSeen(frames, mask, keys, from);
      EncodeAll(OnWire(frames, mask, keys, from))
  }

  lemma {:induction false} EncodeAllAppend(a: seq<Outgoing>, b: seq<Outgoing>)
    requires AllSendable(a) && AllSendable(b)
    ensures AllSendable(a + b) && EncodeAll(a + b) == EncodeAll(a) + EncodeAll(b)
  {
    hide Encode, Sendable;
    if a == [] {
      assert a + b == b;
    } else {
      assert AllSendable(a[1..]);
      EncodeAllAppend(a[1..], b);
      assert (a + b)[1..] == a[1..] + b;
    }
  }

  lemma {:induction false} OnWireAppend(a: seq<Frame>, b: seq<Frame>, mask: bool, keys: Keys, from: nat)
    ensures OnWire(a + b, mask, keys, from) == OnWire(a, mask, keys, from) + OnWire(b, mask, keys, from + |a|)
  {
  }

  lemma WireAppend(a: seq<Frame>, f: Frame, mask: bool, keys: Keys, from: nat)
    requires Transmittable(a) && Transmittable([f]) && GoodKeys(keys)
    ensures Transmittable(a + [f])
    ensures Wire(a + [f], mask, keys, from)
      == Wire(a, mask, keys, from) + Encode(Outgoing(f, if mask then Some(keys(from + |a|)) else None))
  {
    hide Encode;
    WireIsSeen(a, mask, keys, from);
    WireIsSeen([f], mask, keys, from + |a|);
    OnWireAppend(a, [f], mask, keys, from);
    EncodeAllAppend(OnWire(a, mask, keys, from), OnWire([f], mask, keys, from + |a|));
    var o := Outgoing(f, if mask then Some(keys(from + |a|)) else None);
    assert OnWire([f], mask, keys, from + |a|) == [o];
    assert EncodeAll([o]) == Encode(o) + EncodeAll([o][1..]) == Encode(o);
  }

  // ---------------------------------------------------------------- reading a body piecewise

  datatype Status = Going | Eof | Broken

  /** The result of one Read of at most 32 KiB: some bytes, possibly none, together with what comes next. */
  datatype ReadStep = ReadStep(data: seq<byte>, status: Status)

  ghost predicate GoodSteps(steps: seq<ReadStep>)
  {
    forall i :: 0 <= i < |steps| ==> |steps[i].data| <= 32768
  }

  /** All bytes of a body up to its end or its first error. */
  function Delivered(steps: seq<ReadStep>): seq<byte>
  {
    if steps == [] then []
    else if steps[0].status.Going? then steps[0].data + Delivered(steps[1..])
    else steps[0].data
  }

  /** How reading ends, Going standing for a body that says nothing more. */
  function Ending(steps: seq<ReadStep>): Status
  {
    if steps == [] then Going
    else if steps[0].status.Going? then Ending(steps[1..])
    else steps[0].status
  }

  /** The binary frames of a body: one for each Read that returned bytes. */
  function DataFrames(steps: seq<ReadStep>): seq<Frame>
  {
    if steps == [] then []
    else DataFrame(steps[0]) + (if steps[0].status.Going? then DataFrames(steps[1..]) else [])
  }

  function DataFrame(s: ReadStep): seq<Frame>
  {
    if s.data == [] then [] else [Frame(BINARY, s.data)]
  }

  lemma {:induction false} DataFramesAreTransmittable(steps: seq<ReadStep>)
    requires GoodSteps(steps)
    ensures Transmittable(DataFrames(steps)) && !HasClose(DataFrames(steps))
    ensures BodyOf(DataFrames(steps)) == Delivered(steps)
  {
    if steps != [] {
      if steps[0].status.Going? {
        DataFramesAreTransmittable(steps[1..]);
      }
      DataFirst(steps[0], if steps[0].status.Going? then DataFrames(steps[1..]) else []);
    }
  }

  lemma DataFirst(s: ReadStep, rest: seq<Frame>)
    ensures BodyOf(DataFrame(s) + rest) == s.data + BodyOf(rest)
    ensures HasClose(DataFrame(s) + rest) == HasClose(rest)
  {
    if s.data == [] {
      assert DataFrame(s) + rest == rest;
    } else {
      assert (DataFrame(s) + rest)[1..] == rest;
    }
  }

  // ---------------------------------------------------------------- requests

  /** What pumpBody sends: the data, and a text message once the body has ended. */
  function RequestFrames(json: Codec, steps: seq<ReadStep>): seq<Frame>
  {
    DataFrames(steps) + (if Ending(steps).Eof? then [Frame(TEXT, json.enc(RequestEnd))] else [])
  }

  lemma RequestFramesFacts(json: Codec, steps: seq<ReadStep>)
    requires Carries(json, RequestEnd) && GoodSteps(steps)
    ensures Transmittable(RequestFrames(json, steps)) && !HasClose(RequestFrames(json, steps))
    ensures BodyOf(RequestFrames(json, steps)) == Delivered(steps)
  {
    DataFramesAreTransmittable(steps);
    var end := [Frame(TEXT, json.enc(RequestEnd))];
    assert end[1..] == [];
    assert BodyOf(end) == [] && !HasClose(end);
    BodyOfAppend(DataFrames(steps), end);
    assert DataFrames(steps) + [] == DataFrames(steps);
  }

  lemma {:induction false} BodyOfAppend(a: seq<Frame>, b: seq<Frame>)
    requires !HasClose(a)
    ensures BodyOf(a + b) == BodyOf(a) + BodyOf(b) && HasClose(a + b) == HasClose(b)
  {
    if a == [] {
      assert a + b == b;
    } else {
      assert (a + b)[1..] == a[1..] + b;
      BodyOfAppend(a[1..], b);
    }
  }

  /** A frame read from a cut-off stream is one of those sent: the frames form a prefix. */
  lemma CutWire(frames: seq<Frame>, mask: bool, keys: Keys, k: nat)
    requires Transmittable(frames) && GoodKeys(keys) && k <= |Wire(frames, mask, keys, 0)|
    ensures DecodeAll(Wire(frames, mask, keys, 0)[..k]) <= frames
    ensures k == |Wire(frames, mask, keys, 0)| ==> DecodeAll(Wire(frames, mask, keys, 0)[..k]) == frames
  {
    WireIsSeen(frames, mask, keys, 0);
    var os := OnWire(frames, mask, keys, 0);
    StreamPrefix(os, k);
    StreamRoundTrip(os);
    assert k == |EncodeAll(os)| ==> EncodeAll(os)[..k] == EncodeAll(os);
  }

  lemma {:induction false} NoCloseInPrefix(a: seq<Frame>, b: seq<Frame>)
    requires a <= b && !HasClose(b)
    ensures !HasClose(a)
  {
    if a != [] {
      NoCloseInPrefix(a[1..], b[1..]);
    }
  }

  lemma RequestStep(json: Codec, step: ReadStep, rest: seq<ReadStep>)
    ensures RequestFrames(json, [step] + rest) ==
            DataFrame(step) + (match step.status
                               case Going => RequestFrames(json, rest)
                               case Eof => [Frame(TEXT, json.enc(RequestEnd))]
                               case Broken => [])
  {
    assert ([step] + rest)[1..] == rest;
  }

  /** One more frame on the wire. */
  method Send(conn: Conn, f: Frame, keys: Keys, sent: nat, ghost done: seq<Frame>)
    requires GoodKeys(keys) && |done| == sent && Transmittable(done) && Transmittable([f])
    requires conn.out == Wire(done, conn.mask, keys, 0)
    modifies conn`out
    ensures Transmittable(done + [f]) && conn.out == Wire(done + [f], conn.mask, keys, 0)
  {
    hide Encode, Wire;
    WireAppend(done, f, conn.mask, keys, 0);
    conn.WriteFrame(f.opcode, f.payload, keys(sent));
  }

  /** pumpBody: the read loop of the stub, on a connection that has sent the frames `before`. */
  method PumpBody(json: Codec, steps: seq<ReadStep>, conn: Conn, keys: Keys, sent: nat, ghost before: seq<Frame>)
    requires Carries(json, RequestEnd) && GoodSteps(steps) && GoodKeys(keys)
    requires |before| == sent && Transmittable(before) && conn.out == Wire(before, conn.mask, keys, 0)
    modifies conn`out
    ensures Transmittable(before + RequestFrames(json, steps))
    ensures conn.out == Wire(before + RequestFrames(json, steps), conn.mask, keys, 0)
  {
    hide Wire, RequestFrames;
    ghost var all, done := before + RequestFrames(json, steps), before;
    var count := sent;
    NoRequestFrames(json);
    for i := 0 to |steps|
      invariant |done| == count && Transmittable(done) && conn.out == Wire(done, conn.mask, keys, 0)
      invariant done + RequestFrames(json, steps[i..]) == all
    {
      var step := steps[i];
      RequestStep(json, step, steps[i + 1..]);
      assert steps[i..] == [step] + steps[i + 1..];
      if step.data != [] {
        Send(conn, Frame(BINARY, step.data), keys, count, done);
        done, count := done + [Frame(BINARY, step.data)], count + 1;
      }
      if step.status == Eof {
        assert done + [Frame(TEXT, json.enc(RequestEnd))] == all;
        Send(conn, Frame(TEXT, json.enc(RequestEnd)), keys, count, done);
        return;
      }
      if step.status == Broken {
        assert done == all;
        return;
      }
    }
    assert steps[|steps|..] == [];
    assert done == all;
  }

  lemma NoRequestFrames(json: Codec)
    ensures RequestFrames(json, []) == []
  {
  }

  // ---------------------------------------------------------------- responses

  /** Hop-by-hop header names, in canonical form, as both ends drop them. */
  predicate HopByHop(key: string)
  {
    Lower(key) in {"connection", "keep-alive", "proxy-authenticate", "proxy-authorization", "te", "trailer",
                   "transfer-encoding", "upgrade"}
  }

  /** sanitizeResponseHeaders, and copyHeaders into an empty header: keys without values vanish. */
  function Filtered(h: Headers): Headers
  {
    map k | k in h && !HopByHop(k) && h[k] != [] :: h[k]
  }

  function FilteredHead(h: Head): Head
  {
    Head(h.status, Filtered(h.header))
  }

  function FilteredHeads(hs: seq<Head>): seq<Head>
  {
    if hs == [] then [] else [FilteredHead(hs[0])] + FilteredHeads(hs[1..])
  }

  /** A response read from the backend: its head and the Reads of its body. */
  datatype Response = Response(head: Head, body: seq<ReadStep>)

  predicate Interim(status: int)
  {
    100 <= status < 200
  }

  ghost predicate CarriesHead(json: Codec, h: Head)
  {
    Carries(json, ResponseStart(FilteredHead(h)))
  }

  function StartFrame(json: Codec, h: Head): Frame
  {
    Frame(TEXT, json.enc(ResponseStart(FilteredHead(h))))
  }

  /** What the worker sends for the responses it reads, up to the first that is not interim. */
  function ReplyFrames(json: Codec, responses: seq<Response>): seq<Frame>
  {
    if responses == [] then []
    else
      var r := responses[0];
      [StartFrame(json, r.head)] +
      if Interim(r.head.status) then ReplyFrames(json, responses[1..]) else FinalFrames(r.body)
  }

  function FinalFrames(body: seq<ReadStep>): seq<Frame>
  {
    DataFrames(body) + (if Ending(body).Eof? then [Frame(CLOSE, [])] else [])
  }

  lemma FilterTwice(h: Headers)
    ensures Filtered(Filtered(h)) == Filtered(h)
  {
    hide HopByHop;
  }

  function Heads(rs: seq<Response>): seq<Head>
  {
    if rs == [] then [] else [rs[0].head] + Heads(rs[1..])
  }

  lemma {:induction false} CloseIsLast(a: seq<Frame>, b: seq<Frame>)
    requires !HasClose(b) && a <= b + [Frame(CLOSE, [])] && HasClose(a)
    ensures a == b + [Frame(CLOSE, [])]
  {
    var all := b + [Frame(CLOSE, [])];
    if b == [] {
      assert a[0] == all[0];
    } else {
      assert all[1..] == b[1..] + [Frame(CLOSE, [])] && a[0] == b[0];
      assert a[1..] <= all[1..];
      CloseIsLast(a[1..], b[1..]);
      assert a == [a[0]] + a[1..];
    }
  }

  lemma FinalPart(body: seq<ReadStep>, frames: seq<Frame>)
    requires GoodSteps(body) && frames <= FinalFrames(body)
    ensures BodyOf(frames) <= Delivered(body) && Transmittable(FinalFrames(body))
    ensures HasClose(frames) ==> Ending(body).Eof? && BodyOf(frames) == Delivered(body)
  {
    hide DataFrames;
    DataFramesAreTransmittable(body);
    var data, close := DataFrames(body), [Frame(CLOSE, [])];
    OneClose();
    BodyOfAppend(data, close);
    BodyOfPrefix(frames, FinalFrames(body));
    assert data + [] == data;
    if HasClose(frames) {
      if Ending(body).Eof? {
        CloseIsLast(frames, data);
      } else {
        NoCloseInPrefix(frames, data);
      }
    }
  }

  // ---------------------------------------------------------------- the loops

  /** copyResponseToTunnel */
  method CopyResponse(body: seq<ReadStep>, conn: Conn, keys: Keys, sent: nat, ghost before: seq<Frame>)
    returns (ok: bool, count: nat)
    requires GoodSteps(body) && GoodKeys(keys)
    requires |before| == sent && Transmittable(before) && conn.out == Wire(before, conn.mask, keys, 0)
    modifies conn`out
    ensures Transmittable(before + DataFrames(body)) && conn.out == Wire(before + DataFrames(body), conn.mask, keys, 0)
    ensures ok <==> Ending(body).Eof?
    ensures count == sent + |DataFrames(body)|
  {
    hide Wire, DataFrames, DataFrame;
    ghost var all, done := before + DataFrames(body), before;
    count := sent;
    NoData();
    for i := 0 to |body|
      invariant |done| == count && Transmittable(done) && conn.out == Wire(done, conn.mask, keys, 0)
      invariant done + DataFrames(body[i..]) == all && Ending(body[i..]) == Ending(body)
    {
      var step := body[i];
      DataStep(step, body[i + 1..]);
      assert body[i..] == [step] + body[i + 1..];
      if step.data != [] {
        Send(conn, Frame(BINARY, step.data), keys, count, done);
        done, count := done + [Frame(BINARY, step.data)], count + 1;
      }
      if step.status != Going {
        assert done == all;
        return step.status == Eof, count;
      }
    }
    assert body[|body|..] == [];
    assert done == all;
    return false, count;
  }

  lemma OneClose()
    ensures HasClose([Frame(CLOSE, [])]) && BodyOf([Frame(CLOSE, [])]) == []
  {
  }

  lemma NoFrames()
    ensures !HasClose([])
  {
  }

  lemma NoData()
    ensures DataFrames([]) == []
  {
  }

  lemma DataStep(step: ReadStep, rest: seq<ReadStep>)
    ensures DataFrames([step] + rest) == DataFrame(step) + (if step.status.Going? then DataFrames(rest) else [])
    ensures DataFrame(step) == if step.data == [] then [] else [Frame(BINARY, step.data)]
    ensures Ending([step] + rest) == if step.status.Going? then Ending(rest) else step.status
  {
    assert ([step] + rest)[1..] == rest;
  }

  /** The body of a final response and the close frame. */
  method SendFinal(body: seq<ReadStep>, conn: Conn, keys: Keys, sent: nat, ghost before: seq<Frame>) returns (ok: bool)
    requires GoodSteps(body) && GoodKeys(keys) && !HasClose(before)
    requires |before| == sent && Transmittable(before) && conn.out == Wire(before, conn.mask, keys, 0)
    modifies conn`out
    ensures Transmittable(before + FinalFrames(body))
    ensures conn.out == Wire(before + FinalFrames(body), conn.mask, keys, 0)
    ensures ok <==> HasClose(before + FinalFrames(body))
  {
    hide Wire, DataFrames, HasClose, BodyOf;
    var count;
    OneClose();
    NoFrames();
    DataFramesAreTransmittable(body);
    BodyOfAppend(before, DataFrames(body));
    ok, count := CopyResponse(body, conn, keys, sent, before);
    ghost var done := before + DataFrames(body);
    if ok {
      BodyOfAppend(done, [Frame(CLOSE, [])]);
      Send(conn, Frame(CLOSE, []), keys, count, done);
      assert done + [Frame(CLOSE, [])] == before + FinalFrames(body);
    } else {
      assert done == before + FinalFrames(body);
    }
  }

  /** The response loop of handleHTTPTunnel; `ok` means that the close frame was sent. */
  method SendReply(json: Codec, responses: seq<Response>, conn: Conn, keys: Keys) returns (ok: bool)
    requires GoodKeys(keys) && conn.out == []
    requires forall i :: 0 <= i < |responses| ==> GoodSteps(responses[i].body) && CarriesHead(json, responses[i].head)
    modifies conn`out
    ensures Transmittable(ReplyFrames(json, responses))
    ensures conn.out == Wire(ReplyFrames(json, responses), conn.mask, keys, 0)
    ensures ok <==> HasClose(ReplyFrames(json, responses))
  {
    hide Wire, FilteredHead, FinalFrames, ReplyFrames, Interim, StartFrame;
    ghost var all, done := ReplyFrames(json, responses), [];
    var count := 0;
    NothingOnWire(conn.mask, keys);
    for i := 0 to |responses|
      invariant |done| == count && Transmittable(done) && conn.out == Wire(done, conn.mask, keys, 0)
      invariant done + ReplyFrames(json, responses[i..]) == all && !HasClose(done)
    {
      var r := responses[i];
      var start := StartFrame(json, r.head);
      ReplyStep(json, r, responses[i + 1..]);
      assert responses[i..] == [r] + responses[i + 1..];
      BodyOfAppend(done, [start]);
      Send(conn, start, keys, count, done);
      done, count := done + [start], count + 1;
      if !Interim(r.head.status) {
        assert done + FinalFrames(r.body) == all;
        ok := SendFinal(r.body, conn, keys, count, done);
        return;
      }
    }
    NoReply(json);
    assert responses[|responses|..] == [];
    assert done == all;
    return false;
  }

  lemma NothingOnWire(mask: bool, keys: Keys)
    requires GoodKeys(keys)
    ensures Wire([], mask, keys, 0) == []
  {
  }

  lemma NoReply(json: Codec)
    ensures ReplyFrames(json, []) == []
  {
  }

  lemma ReplyStep(json: Codec, r: Response, rest: seq<Response>)
    ensures ReplyFrames(json, [r] + rest) == [StartFrame(json, r.head)] +
            (if Interim(r.head.status) then ReplyFrames(json, rest) else FinalFrames(r.body))
    ensures !HasClose([StartFrame(json, r.head)])
    ensures CarriesHead(json, r.head) ==> Transmittable([StartFrame(json, r.head)])
  {
    assert ([r] + rest)[1..] == rest;
  }
}

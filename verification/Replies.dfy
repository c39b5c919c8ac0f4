/** Replies on their way from the tunnel to the client: the stub's handler, and what net/http makes of
    its calls when it returns. */
module Replies {
  import opened Strings
  import opened Frames
  import opened Chunked
  import opened Tunnel

  // ---------------------------------------------------------------- the response writer

  /** What has been written: the header map, the heads sent, whether a final one is among them, the body
      bytes sent, and how many the handler tried to send. */
  datatype Page = Page(header: Headers, heads: seq<Head>, started: bool, body: seq<byte>, written: nat)

  const BLANK := Page(map[], [], false, [], 0)

  /** The body length a head declares. */
  function Declared(h: Head): Option<nat>
  {
    if "Content-Length" !in h.header || h.header["Content-Length"] == [] then None
    else
      var n := Atoi(h.header["Content-Length"][0]);
      if n.Some? && n.value >= 0 then Some(n.value) else None
  }

  /** Responses that have no body. */
  predicate Bodyless(h: Head)
  {
    h.status == 204 || h.status == 304
  }

  /** This body is all that the head promises. */
  predicate Fills(h: Head, body: seq<byte>)
  {
    Bodyless(h) || Declared(h).None? || |body| == Declared(h).value
  }

  /** And this one is no more. */
  predicate Fits(h: Head, body: seq<byte>)
  {
    if Bodyless(h) then body == [] else Declared(h).None? || |body| <= Declared(h).value
  }

  /** WriteHeader: after the final head there is no other. */
  function Headed(p: Page, status: int): Page
  {
    if p.started then p
    else p.(heads := p.heads + [Head(status, p.header)], started := !Interim(status))
  }

  function LastHead(p: Page): Head
  {
    if p.heads == [] then Head(200, p.header) else p.heads[|p.heads| - 1]
  }

  /** Write, which gives status 200 if there is no final head yet. It is refused where no body is allowed,
      and beyond the declared length. */
  function Put(p: Page, data: seq<byte>): (Page, bool)
  {
    var p := Headed(p, 200);
    if data == [] then (p, true)
    else if Bodyless(LastHead(p)) then (p, false)
    else
      var room := Declared(LastHead(p));
      var q := p.(written := p.written + |data|);
      if room.Some? && q.written > room.value then (q, false) else (q.(body := q.body + data), true)
  }

  // ---------------------------------------------------------------- the handler

  /** Why handleHTTP fails with an error other than io.EOF. */
  datatype Cause = Reading(error: ReadError) | BadMessage | Refused

  /** What handleHTTP returns: io.EOF, another error, what the upgrade branch returns, or it panics. */
  datatype End = Silent | Failed(cause: Cause) | Switched | Crashed

  function EndOf(stop: Stop): End
  {
    match stop
    case Crashing => Crashed
    case Failure(EndOfStream) => Silent
    case Failure(error) => Failed(Reading(error))
  }

  /** The response loop, on the frames that can be read and what stops the reader after them. */
  function Handled(json: Codec, p: Page, frames: seq<Frame>, stop: Stop): (Page, End)
    decreases |frames|, 0
  {
    if frames == [] then (p, EndOf(stop)) else Taken(json, p, frames[0], frames[1..], stop)
  }

  function Taken(json: Codec, p: Page, f: Frame, later: seq<Frame>, stop: Stop): (Page, End)
    decreases |later|, 1
  {
    var m := json.dec(f.payload);
    if f.opcode != TEXT || m.None? || !m.value.ResponseStart? then (p, Failed(BadMessage))
    else
      var h := m.value.head;
      if h.status == 101 then (p, Switched)
      else
        var q := Headed(p.(header := Filtered(h.header)), h.status);
        if Interim(h.status) then Handled(json, q, later, stop) else Copied(q, later, stop)
  }

  /** copyTunnelBodyToWriter: a close frame makes it return io.EOF, and so does a tunnel that ends where
      the next read gets no byte. */
  function Copied(p: Page, frames: seq<Frame>, stop: Stop): (Page, End)
    decreases |frames|
  {
    if frames == [] then (p, EndOf(stop))
    else if frames[0].opcode == CLOSE then (p, Silent)
    else if frames[0].opcode == BINARY && frames[0].payload != [] then
      var (q, ok) := Put(p, frames[0].payload);
      if ok then Copied(q, frames[1..], stop) else (q, Failed(Refused))
    else Copied(p, frames[1..], stop)
  }

  // ---------------------------------------------------------------- what the client gets

  /** complete: the client can take the answer for a whole one. */
  datatype Answer = Answer(heads: seq<Head>, body: seq<byte>, complete: bool)

  /** The text http.Error writes for each cause. */
  type Texts = Cause -> seq<byte>

  /** The header map as http.Error leaves it. */
  function ErrorHeader(header: Headers): Headers
  {
    header["Content-Type" := ["text/plain; charset=utf-8"]]["X-Content-Type-Options" := ["nosniff"]]
  }

  /** net/http ends a response whose handler has returned, with status 200 if none was given. */
  function Ended(p: Page): Answer
  {
    var q := Headed(p, 200);
    Answer(q.heads, q.body, Fills(LastHead(q), q.body))
  }

  /** http.Error */
  function Complaint(p: Page, text: seq<byte>): Page
  {
    Put(Headed(p.(header := ErrorHeader(p.header)), 502), text).0
  }

  /** handle: silence on io.EOF, and http.Error on any other error. None: the connection was upgraded. */
  function Finished(p: Page, end: End, texts: Texts): Option<Answer>
  {
    match end
    case Silent => Some(Ended(p))
    case Failed(cause) => Some(Ended(Complaint(p, texts(cause))))
    case Switched => None
    case Crashed => Some(Answer(p.heads, p.body, false))
  }

  /** What the client gets for the bytes of a tunnel that ends as it ends. */
  function Answered(json: Codec, bytes: seq<byte>, finish: Finish, texts: Texts): Option<Answer>
  {
    var (p, end) := Handled(json, BLANK, DecodeAll(bytes), StopOf(finish, bytes));
    Finished(p, end, texts)
  }

  // ---------------------------------------------------------------- replies

  /** Responses as http.ReadResponse gives them: a declared length is kept, and a body that ends well has
      it; status 101 is not among them. */
  ghost predicate GoodResponses(json: Codec, rs: seq<Response>)
  {
    forall i :: 0 <= i < |rs| ==>
      && rs[i].head.status != 101 && CarriesHead(json, rs[i].head) && GoodSteps(rs[i].body)
      && Fits(FilteredHead(rs[i].head), Delivered(rs[i].body))
      && (Ending(rs[i].body).Eof? ==> Fills(FilteredHead(rs[i].head), Delivered(rs[i].body)))
  }

  /** What the backend said: its heads, the first that is not interim being the final one; the body; and
      whether the body ended well. */
  datatype Reply = Reply(heads: seq<Head>, final: bool, body: seq<byte>, ended: bool)

  function ReplyOf(rs: seq<Response>): Reply
  {
    if rs == [] then Reply([], false, [], false)
    else if Interim(rs[0].head.status) then Behind(FilteredHead(rs[0].head), ReplyOf(rs[1..]))
    else Reply([FilteredHead(rs[0].head)], true, Delivered(rs[0].body), Ending(rs[0].body).Eof?)
  }

  function Behind(h: Head, r: Reply): Reply
  {
    r.(heads := [h] + r.heads)
  }

  /** Everything was read, up to the close frame that marks a body that ended well. */
  ghost predicate CloseRead(json: Codec, rs: seq<Response>, frames: seq<Frame>)
  {
    frames == ReplyFrames(json, rs) && ReplyOf(rs).ended
  }

  /** What the handler has done when it returns. */
  ghost predicate Passed(p: Page, q: Page, whole: Reply)
  {
    && p.heads <= q.heads && q.heads[|p.heads|..] <= whole.heads
    && q.body <= whole.body && q.written == |q.body|
    && (q.started <==> whole.final && q.heads == p.heads + whole.heads)
    && (!q.started ==> q.body == [])
    && q.header == (if q.heads == p.heads then p.header else LastHead(q).header)
    && (q.started ==> q.heads != [] && Fits(LastHead(q), whole.body))
  }

  /** Without a refusal, the body frames are written one after the other. */
  lemma {:induction false} CopiedAll(p: Page, frames: seq<Frame>, stop: Stop)
    requires p.started && p.written == |p.body| && Fits(LastHead(p), p.body + BodyOf(frames))
    ensures var (q, end) := Copied(p, frames, stop);
            && q == p.(body := p.body + BodyOf(frames), written := |q.body|)
            && end == if HasClose(frames) then Silent else EndOf(stop)
    decreases |frames|
  {
    if frames != [] && frames[0].opcode != CLOSE {
      var f := frames[0];
      assert BodyOf(frames) == Piece(f, false) + BodyOf(frames[1..]);
      if f.opcode == BINARY && f.payload != [] {
        var (q, ok) := Put(p, f.payload);
        assert p.body + BodyOf(frames) == (p.body + f.payload) + BodyOf(frames[1..]);
        CopiedAll(q, frames[1..], stop);
      } else {
        CopiedAll(p, frames[1..], stop);
      }
    } else {
      assert p.body + [] == p.body;
    }
  }

  lemma FinalHandled(p: Page, r: Response, frames: seq<Frame>, stop: Stop)
    requires p.started && p.body == [] && p.written == 0
    requires LastHead(p) == FilteredHead(r.head) && GoodSteps(r.body) && frames <= FinalFrames(r.body)
    requires Fits(FilteredHead(r.head), Delivered(r.body))
    ensures var (q, end) := Copied(p, frames, stop);
            && q == p.(body := q.body, written := |q.body|) && q.body <= Delivered(r.body)
            && end == (if frames == FinalFrames(r.body) && Ending(r.body).Eof? then Silent else EndOf(stop))
            && (frames == FinalFrames(r.body) ==> q.body == Delivered(r.body))
  {
    hide DataFrames, FilteredHead, Copied;
    FinalPart(r.body, frames);
    assert [] + BodyOf(frames) == BodyOf(frames);
    CopiedAll(p, frames, stop);
    DataFramesAreTransmittable(r.body);
    OneClose();
    BodyOfAppend(DataFrames(r.body), [Frame(CLOSE, [])]);
    assert DataFrames(r.body) + [] == DataFrames(r.body);
    if HasClose(frames) {
      CloseIsLast(frames, DataFrames(r.body));
    }
  }

  /** An interim head in front of the rest. */
  lemma PassedBehind(p: Page, h: Head, q: Page, whole: Reply)
    requires var first := p.(header := h.header, heads := p.heads + [h]);
             Passed(first, q, whole)
    ensures Passed(p, q, Behind(h, whole))
    ensures q.heads == p.heads + [h] + whole.heads ==> q.heads == p.heads + Behind(h, whole).heads
  {
    hide Fits;
    var first := p.heads + [h];
    assert p.heads <= first <= q.heads;
    assert q.heads == first + q.heads[|first|..];
    assert q.heads[|p.heads|..] == [h] + q.heads[|first|..];
    assert first + whole.heads == p.heads + ([h] + whole.heads);
  }

  lemma {:induction false} HandledPart(json: Codec, p: Page, rs: seq<Response>, frames: seq<Frame>, stop: Stop)
    requires GoodResponses(json, rs) && frames <= ReplyFrames(json, rs)
    requires !p.started && p.body == [] && p.written == 0
    ensures var (q, end) := Handled(json, p, frames, stop);
            && Passed(p, q, ReplyOf(rs))
            && end == (if CloseRead(json, rs, frames) then Silent else EndOf(stop))
            && (frames == ReplyFrames(json, rs) ==>
                  q.heads == p.heads + ReplyOf(rs).heads && q.body == ReplyOf(rs).body)
    decreases |rs|
  {
    hide Filtered, FinalFrames, Delivered, Ending, BodyOf, HasClose, Fits, Fills, Copied;
    if frames != [] {
      var r, later := rs[0], frames[1..];
      var all := ReplyFrames(json, rs);
      var h := FilteredHead(r.head);
      assert frames[0] == all[0] == StartFrame(json, r.head) && later <= all[1..];
      FilterTwice(r.head.header);
      var first := Headed(p.(header := h.header), h.status);
      assert Handled(json, p, frames, stop) ==
             if Interim(h.status) then Handled(json, first, later, stop) else Copied(first, later, stop);
      assert later == all[1..] <==> frames == all;
      hide Handled;
      if Interim(r.head.status) {
        assert all[1..] == ReplyFrames(json, rs[1..]);
        HandledPart(json, first, rs[1..], later, stop);
        hide Passed;
        PassedBehind(p, h, Handled(json, first, later, stop).0, ReplyOf(rs[1..]));
      } else {
        assert all[1..] == FinalFrames(r.body);
        FinalHandled(first, r, later, stop);
      }
    }
  }

  lemma {:induction false} ReplyIsTransmittable(json: Codec, rs: seq<Response>)
    requires GoodResponses(json, rs)
    ensures Transmittable(ReplyFrames(json, rs))
  {
    hide Filtered, FinalFrames;
    if rs != [] {
      FinalPart(rs[0].body, []);
      if Interim(rs[0].head.status) {
        ReplyIsTransmittable(json, rs[1..]);
      }
    }
  }

  /** The bytes of a reply, cut off after `k` of them. */
  ghost function Sent(json: Codec, rs: seq<Response>, keys: Keys, k: nat): seq<byte>
    requires k <= |Wire(ReplyFrames(json, rs), false, keys, 0)|
  {
    Wire(ReplyFrames(json, rs), false, keys, 0)[..k]
  }

  lemma SentIsRead(json: Codec, rs: seq<Response>, keys: Keys, k: nat, finish: Finish)
    requires GoodResponses(json, rs) && GoodKeys(keys) && k <= |Wire(ReplyFrames(json, rs), false, keys, 0)|
    ensures var bytes := Sent(json, rs, keys, k);
            && DecodeAll(bytes) <= ReplyFrames(json, rs)
            && (k == |Wire(ReplyFrames(json, rs), false, keys, 0)| ==>
                  DecodeAll(bytes) == ReplyFrames(json, rs) && Leftover(bytes) == [])
            && StopOf(finish, bytes) == Failure(EndError(finish, Leftover(bytes)))
  {
    hide DecodeAll, Leftover, Decode, ReplyFrames, EndError;
    var frames := ReplyFrames(json, rs);
    ReplyIsTransmittable(json, rs);
    CutWire(frames, false, keys, k);
    WireIsSeen(frames, false, keys, 0);
    CutStops(OnWire(frames, false, keys, 0), k);
  }

  // ---------------------------------------------------------------- replies cut short

  /** The tunnel ends where the reader's next read gets no byte. */
  predicate Quiet(finish: Finish, bytes: seq<byte>)
  {
    finish.Closed? && AtBoundary(Leftover(bytes))
  }

  /** The answer of a handler that returns in silence. */
  function QuietAnswer(p: Page): Answer
  {
    if p.started then Answer(p.heads, p.body, Fills(LastHead(p), p.body))
    else Answer(p.heads + [Head(200, p.header)], [], Fills(Head(200, p.header), []))
  }

  /** The answer of one that complains: with a head of its own, or behind what was sent. */
  function LoudAnswer(p: Page, text: seq<byte>): Answer
  {
    var plain := p.header["Content-Type" := ["text/plain; charset=utf-8"]]["X-Content-Type-Options" := ["nosniff"]];
    var h := if p.started then LastHead(p) else Head(502, plain);
    var body := if Fits(h, p.body + text) then p.body + text else p.body;
    Answer(if p.started then p.heads else p.heads + [h], body, Fills(h, body))
  }

  lemma ErrorHeaderIs(header: Headers)
    ensures ErrorHeader(header)
      == header["Content-Type" := ["text/plain; charset=utf-8"]]["X-Content-Type-Options" := ["nosniff"]]
  {
  }

  lemma FinishedIs(p: Page, texts: Texts, cause: Cause)
    requires p.written == |p.body| && (p.started ==> p.heads != []) && (!p.started ==> p.body == [])
    requires p.started ==> Fits(LastHead(p), p.body)
    ensures Finished(p, Silent, texts) == Some(QuietAnswer(p))
    ensures texts(cause) != [] ==> Finished(p, Failed(cause), texts) == Some(LoudAnswer(p, texts(cause)))
  {
    ErrorHeaderIs(p.header);
    hide ErrorHeader;
    var text := texts(cause);
    if text != [] {
      var q := Headed(p.(header := ErrorHeader(p.header)), 502);
      assert LastHead(q) == if p.started then LastHead(p) else Head(502, ErrorHeader(p.header));
      assert |p.body + text| == p.written + |text|;
      assert Headed(q, 502) == Headed(q, 200) == q;
      assert (p.body + text == []) == false;
    }
  }

  /** However far the connection has got, however it ends, and even if the backend's body breaks off: the
      handler has passed on a part of the reply, and returns in silence if and only if it read the close frame
      or the tunnel ended where the next read got no byte. In the first case the answer is the whole reply. In
      the others net/http completes what there is: if the handler is silent, with status 200 where no final
      head was sent; if it complains, with status 502, or with a text behind the body. */
  lemma AnswerAtCut(json: Codec, rs: seq<Response>, keys: Keys, k: nat, finish: Finish, texts: Texts)
    returns (p: Page, end: End)
    requires GoodResponses(json, rs) && GoodKeys(keys) && k <= |Wire(ReplyFrames(json, rs), false, keys, 0)|
    requires forall cause :: texts(cause) != []
    ensures Passed(BLANK, p, ReplyOf(rs))
    ensures var bytes := Sent(json, rs, keys, k);
            && (p, end) == Handled(json, BLANK, DecodeAll(bytes), StopOf(finish, bytes))
            && (end.Silent? <==> CloseRead(json, rs, DecodeAll(bytes)) || Quiet(finish, bytes))
            && Answered(json, bytes, finish, texts) == Some(
                 if CloseRead(json, rs, DecodeAll(bytes)) then Answer(ReplyOf(rs).heads, ReplyOf(rs).body, true)
                 else if Quiet(finish, bytes) then QuietAnswer(p)
                 else LoudAnswer(p, texts(Reading(EndError(finish, Leftover(bytes))))))
  {
    hide DecodeAll, Leftover, AtBoundary, Handled, ReplyFrames, StopOf, LoudAnswer, Finished, Sent;
    var bytes := Sent(json, rs, keys, k);
    SentIsRead(json, rs, keys, k, finish);
    HandledPart(json, BLANK, rs, DecodeAll(bytes), StopOf(finish, bytes));
    var (q, e) := Handled(json, BLANK, DecodeAll(bytes), StopOf(finish, bytes));
    p, end := q, e;
    PartFits(p, ReplyOf(rs));
    FinishedIs(p, texts, Reading(EndError(finish, Leftover(bytes))));
    if CloseRead(json, rs, DecodeAll(bytes)) {
      WholeFills(json, rs);
      assert [] + ReplyOf(rs).heads == ReplyOf(rs).heads;
    }
  }

  lemma PartFits(p: Page, whole: Reply)
    requires Passed(BLANK, p, whole)
    ensures p.started ==> p.heads != [] && Fits(LastHead(p), p.body) && p.heads == whole.heads
    ensures p.heads <= whole.heads
  {
    assert p.heads[0..] == p.heads;
    assert [] + whole.heads == whole.heads;
  }

  /** A body that ends well has the length that was declared. */
  lemma {:induction false} WholeFills(json: Codec, rs: seq<Response>)
    requires GoodResponses(json, rs) && ReplyOf(rs).ended
    ensures var whole := ReplyOf(rs);
            whole.final && whole.heads != [] && Fills(whole.heads[|whole.heads| - 1], whole.body)
  {
    hide Filtered, Fills, Fits;
    if Interim(rs[0].head.status) {
      WholeFills(json, rs[1..]);
    }
  }

  /** A reply cut short behind its final head looks whole to the client exactly if the head declares no length
      (or allows no body), or as many bytes came as it declares, be it that the text of a complaint fills up just
      what was missing. So with a declared length a silent handler deceives nobody. */
  lemma LooksWholeIff(p: Page, whole: Reply, text: seq<byte>)
    requires Passed(BLANK, p, whole) && p.started && text != []
    ensures var final := whole.heads[|whole.heads| - 1];
            var open := final.status == 204 || final.status == 304 || Declared(final).None?;
            && final == LastHead(p)
            && (QuietAnswer(p).complete <==> open || |p.body| == Declared(final).value)
            && (LoudAnswer(p, text).complete <==>
                  open || |p.body| == Declared(final).value || |p.body| + |text| == Declared(final).value)
            && (!open && QuietAnswer(p).complete ==> p.body == whole.body)
  {
    PartFits(p, whole);
  }

  /** A reply whose head declares no length and whose body breaks off: once the worker has closed the tunnel, the
      client has what there was of the body, and takes it for a whole answer. */
  lemma BrokenReplyEndsWell(json: Codec, rs: seq<Response>, keys: Keys, texts: Texts)
    requires GoodResponses(json, rs) && GoodKeys(keys) && forall cause :: texts(cause) != []
    requires ReplyOf(rs).final && !ReplyOf(rs).ended
    requires ReplyOf(rs).heads != [] && Declared(ReplyOf(rs).heads[|ReplyOf(rs).heads| - 1]).None?
    ensures var bytes := Wire(ReplyFrames(json, rs), false, keys, 0);
            Answered(json, bytes, Closed, texts) == Some(Answer(ReplyOf(rs).heads, ReplyOf(rs).body, true))
  {
    hide DecodeAll, Leftover, Handled, ReplyFrames, StopOf, Finished, Answered, Bodyless, Declared;
    hide GoodResponses, ReplyOf, GoodKeys, Wire, LoudAnswer;
    var all := Wire(ReplyFrames(json, rs), false, keys, 0);
    assert Sent(json, rs, keys, |all|) == all;
    SentIsRead(json, rs, keys, |all|, Closed);
    HandledPart(json, BLANK, rs, DecodeAll(all), StopOf(Closed, all));
    var p, end := AnswerAtCut(json, rs, keys, |all|, Closed, texts);
    assert [] + ReplyOf(rs).heads == ReplyOf(rs).heads;
  }

  /** A tunnel that the worker closes without an answer, as it does when it cannot reach the backend: the client
      gets status 200 and an empty body, which no backend sent. */
  lemma UnreachableBackend(json: Codec, texts: Texts)
    ensures Answered(json, [], Closed, texts) == Some(Answer([Head(200, map[])], [], true))
  {
    NothingIsShort();
    assert DecodeAll([]) == [] && Leftover([]) == [];
    var end := EndOf(StopOf(Closed, []));
    assert end == Silent && Handled(json, BLANK, [], StopOf(Closed, [])) == (BLANK, end);
    var ok := Head(200, map[]);
    assert Declared(ok).None? && Headed(BLANK, 200) == Page(map[], [ok], true, [], 0);
    assert Fills(ok, []);
  }

  /** End to end, for every complete reply of the backend, however its bytes and the tunnel's bytes arrive,
      and however the tunnel ends afterwards: the client gets the same interim statuses in order, then the
      final one, each with its own headers and no others, then exactly the body, and a good end. */
  lemma ResponseConservation(json: Codec, interim: seq<Response>, final: Response, segments: seq<seq<byte>>, keys: Keys,
                             finish: Finish, texts: Texts)
    requires GoodResponses(json, interim + [final]) && GoodKeys(keys) && forall cause :: texts(cause) != []
    requires forall i :: 0 <= i < |interim| ==> 100 <= interim[i].head.status < 200
    requires !(100 <= final.head.status < 200) && Ending(final.body).Eof?
    requires Joined(segments) == Wire(ReplyFrames(json, interim + [final]), false, keys, 0)
    ensures var answer, rs := Answered(json, Joined(segments), finish, texts), interim + [final];
            && answer.Some? && answer.value.body == Delivered(final.body) && answer.value.complete
            && |answer.value.heads| == |rs|
            && forall i :: 0 <= i < |rs| ==> PassedOn(rs[i].head, answer.value.heads[i])
  {
    hide DecodeAll, Leftover, Handled, ReplyFrames, StopOf, Finished, Answered, Filtered, PassedOn;
    HeadsPassOn(interim + [final]);
    var rs := interim + [final];
    var all := Wire(ReplyFrames(json, rs), false, keys, 0);
    assert Sent(json, rs, keys, |all|) == all;
    SentIsRead(json, rs, keys, |all|, finish);
    WholeReply(interim, final);
    var p, end := AnswerAtCut(json, rs, keys, |all|, finish, texts);
  }

  /** The same status, and the same header but for fields that concern one connection only (section 7.6.1 of
      RFC 9110) and fields without a value. */
  ghost predicate PassedOn(h: Head, h': Head)
  {
    && h'.status == h.status
    && forall k :: (k in h'.header ==> k in h.header && h'.header[k] == h.header[k])
                   && (k in h'.header <==> k in h.header && h.header[k] != [] && Lower(k) !in {
                         "connection", "keep-alive", "proxy-authenticate", "proxy-authorization", "te", "trailer",
                         "transfer-encoding", "upgrade"})
  }

  lemma {:induction false} HeadsPassOn(rs: seq<Response>)
    ensures var heads := FilteredHeads(Heads(rs));
            |heads| == |rs| && forall i :: 0 <= i < |rs| ==> PassedOn(rs[i].head, heads[i])
  {
    hide PassedOn;
    if rs != [] {
      HeadsPassOn(rs[1..]);
      FilterPassesOn(rs[0].head);
      assert Heads(rs) == [rs[0].head] + Heads(rs[1..]);
      assert Heads(rs)[1..] == Heads(rs[1..]);
    }
  }

  lemma FilterPassesOn(h: Head)
    ensures PassedOn(h, FilteredHead(h))
  {
    hide Lower;
  }

  /** A declared length is that of the first Content-Length field. */
  lemma LengthDeclared(status: int, header: Headers, n: nat, more: seq<string>)
    requires IsInt64(n)
    ensures Declared(Head(status, header["Content-Length" := [Itoa(n)] + more])) == Some(n)
    ensures "Content-Length" !in header ==> Declared(Head(status, header)) == None
  {
    hide Itoa, Atoi;
    IntRoundTrip(n);
  }

  lemma {:induction false} WholeReply(interim: seq<Response>, final: Response)
    requires forall i :: 0 <= i < |interim| ==> Interim(interim[i].head.status)
    requires !Interim(final.head.status)
    ensures ReplyOf(interim + [final])
         == Reply(FilteredHeads(Heads(interim + [final])), true, Delivered(final.body), Ending(final.body).Eof?)
  {
    hide Filtered;
    var all := interim + [final];
    if interim == [] {
      assert all == [final] && Heads([final]) == [final.head] + Heads([]);
    } else {
      assert all[1..] == interim[1..] + [final];
      WholeReply(interim[1..], final);
      assert Heads(all) == [all[0].head] + Heads(all[1..]);
    }
  }

  // ---------------------------------------------------------------- the stub

  /** The http.ResponseWriter of the stub. */
  class Writer {
    var header: Headers
    var heads: seq<Head>
    var started: bool
    var body: seq<byte>
    var written: nat

    constructor ()
      ensures Shown() == BLANK
    {
      header, heads, started, body, written := map[], [], false, [], 0;
    }

    function Shown(): Page
      reads this
    {
      Page(header, heads, started, body, written)
    }

    /** copyHeaders: the old entries go, then the passed ones come, value by value. */
    method CopyHeaders(src: Headers)
      modifies this`header
      ensures header == Filtered(src)
    {
      hide HopByHop;
      header := map[];
      var todo := src.Keys;
      while todo != {}
        invariant todo <= src.Keys
        invariant header == map k | k in src && k !in todo && !HopByHop(k) && src[k] != [] :: src[k]
        decreases todo
      {
        var k :| k in todo;
        todo := todo - {k};
        if !HopByHop(k) {
          AddAll(k, src[k]);
        }
      }
    }

    method AddAll(k: string, values: seq<string>)
      requires k !in header
      modifies this`header
      ensures header == if values == [] then old(header) else old(header)[k := values]
    {
      for i := 0 to |values|
        invariant header == if i == 0 then old(header) else old(header)[k := values[..i]]
      {
        assert values[..i + 1] == values[..i] + [values[i]];
        header := header[k := (if k in header then header[k] else []) + [values[i]]];
      }
      assert values[..|values|] == values;
    }

    method WriteHeader(status: int)
      modifies this`heads, this`started
      ensures Shown() == Headed(old(Shown()), status)
    {
      if started {
        return;
      }
      heads, started := heads + [Head(status, header)], !Interim(status);
    }

    method Write(data: seq<byte>) returns (ok: bool)
      modifies this`heads, this`started, this`body, this`written
      ensures (Shown(), ok) == Put(old(Shown()), data)
    {
      WriteHeader(200);
      if data == [] {
        return true;
      }
      var last := LastHead(Shown());
      if Bodyless(last) {
        return false;
      }
      written := written + |data|;
      var room := Declared(last);
      if room.Some? && written > room.value {
        return false;
      }
      body := body + data;
      return true;
    }

    /** http.Error */
    method Error(text: seq<byte>)
      modifies this
      ensures Shown() == Complaint(old(Shown()), text)
    {
      header := ErrorHeader(header);
      WriteHeader(502);
      var _ := Write(text);
    }
  }

  /** The response half of the stub's handleHTTP. */
  method ReceiveReply(json: Codec, conn: Conn, w: Writer) returns (end: End)
    modifies conn`incoming, w
    ensures var bytes := Joined(old(conn.incoming));
            (w.Shown(), end) == Handled(json, old(w.Shown()), DecodeAll(bytes), StopOf(conn.finish, bytes))
  {
    hide Decode, Filtered, Taken, EndError;
    ghost var all := Joined(conn.incoming);
    ghost var whole := Handled(json, w.Shown(), DecodeAll(all), StopOf(conn.finish, all));
    while true
      invariant var bytes := Joined(conn.incoming);
                whole == Handled(json, w.Shown(), DecodeAll(bytes), StopOf(conn.finish, bytes))
      decreases |Joined(conn.incoming)|
    {
      ghost var bytes, p := Joined(conn.incoming), w.Shown();
      var r := conn.ReadFrame();
      ReadStops(conn.finish, bytes);
      match r
      case Panicked => return Crashed;
      case Ended(error) => return EndOf(Failure(error));
      case Arrived(f) =>
        ghost var later, stop := DecodeAll(Joined(conn.incoming)), StopOf(conn.finish, Joined(conn.incoming));
        assert whole == Taken(json, p, f, later, stop);
        TakenIs(json, p, f, later, stop);
        var m := json.dec(f.payload);
        if f.opcode != TEXT || m.None? || !m.value.ResponseStart? {
          return Failed(BadMessage);
        }
        var h := m.value.head;
        if h.status == 101 {
          return Switched;
        }
        w.CopyHeaders(h.header);
        w.WriteHeader(h.status);
        if !Interim(h.status) {
          end := CopyBody(conn, w);
          return;
        }
    }
  }

  /** What reading the next frame says of the frames and of the stop. */
  lemma ReadStops(finish: Finish, bytes: seq<byte>)
    ensures match Decode(bytes)
            case Got(f, rest) =>
              DecodeAll(bytes) == [f] + DecodeAll(rest) && StopOf(finish, bytes) == StopOf(finish, rest)
            case Short => DecodeAll(bytes) == [] && StopOf(finish, bytes) == Failure(EndError(finish, bytes))
            case Crash => DecodeAll(bytes) == [] && StopOf(finish, bytes) == Crashing
  {
    hide Decode, EndError;
  }

  lemma TakenIs(json: Codec, p: Page, f: Frame, later: seq<Frame>, stop: Stop)
    ensures Handled(json, p, [f] + later, stop) == Taken(json, p, f, later, stop)
    ensures Taken(json, p, f, later, stop) ==
            var m := json.dec(f.payload);
            if f.opcode != TEXT || m.None? || !m.value.ResponseStart? then (p, Failed(BadMessage))
            else if m.value.head.status == 101 then (p, Switched)
            else
              var q := Headed(p.(header := Filtered(m.value.head.header)), m.value.head.status);
              if Interim(m.value.head.status) then Handled(json, q, later, stop) else Copied(q, later, stop)
  {
    hide Filtered;
    assert ([f] + later)[1..] == later;
  }

  /** copyTunnelBodyToWriter */
  method CopyBody(conn: Conn, w: Writer) returns (end: End)
    modifies conn`incoming, w
    ensures var bytes := Joined(old(conn.incoming));
            (w.Shown(), end) == Copied(old(w.Shown()), DecodeAll(bytes), StopOf(conn.finish, bytes))
  {
    hide Decode, EndError, Put;
    ghost var all := Joined(conn.incoming);
    ghost var whole := Copied(w.Shown(), DecodeAll(all), StopOf(conn.finish, all));
    while true
      invariant var bytes := Joined(conn.incoming);
                whole == Copied(w.Shown(), DecodeAll(bytes), StopOf(conn.finish, bytes))
      decreases |Joined(conn.incoming)|
    {
      ghost var bytes, p := Joined(conn.incoming), w.Shown();
      var r := conn.ReadFrame();
      ReadStops(conn.finish, bytes);
      match r
      case Panicked => return Crashed;
      case Ended(error) => return EndOf(Failure(error));
      case Arrived(f) =>
        ghost var later := DecodeAll(Joined(conn.incoming));
        assert ([f] + later)[1..] == later;
        if f.opcode == BINARY {
          if f.payload == [] {
            continue;
          }
          var ok := w.Write(f.payload);
          if !ok {
            return Failed(Refused);
          }
        } else if f.opcode == CLOSE {
          return Silent;
        }
    }
  }

  /** handle, for a request that is neither an upgrade nor for one of the stub's own paths, and what net/http
      makes of it. */
  method Handle(json: Codec, conn: Conn, w: Writer, texts: Texts) returns (answer: Option<Answer>)
    requires w.Shown() == BLANK
    modifies conn`incoming, w
    ensures answer == Answered(json, Joined(old(conn.incoming)), conn.finish, texts)
  {
    hide Handled, DecodeAll, StopOf;
    var end := ReceiveReply(json, conn, w);
    match end {
      case Switched => return None;
      case Crashed => return Some(Answer(w.heads, w.body, false));
      case Failed(cause) => w.Error(texts(cause));
      case Silent =>
    }
    w.WriteHeader(200);
    return Some(Answer(w.heads, w.body, Fills(LastHead(w.Shown()), w.body)));
  }
}

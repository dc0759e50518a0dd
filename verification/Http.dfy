/**
 HTTP over a channel: the gateway turns a request into frames, either SDK turns the frames back into a request for
 its handler, and the handler's answer comes back the same way.
 */
module Http {
  import opened Basics

  type Bytes = seq<bv8>
  type Headers = map<string, string>

  /** What the `status` of a response frame parses to. */
  datatype StatusField = Whole(code: int) | NotWhole

  datatype Frame =
    | RequestHead(verb: string, path: string, headers: Headers)
    | RequestEnd
    | ResponseHead(status: StatusField)
    | OtherText
    | NotJson
    | Body(data: Bytes)

  function Flatten(chunks: seq<Bytes>): Bytes {
    if chunks == [] then [] else chunks[0] + Flatten(chunks[1..])
  }

  lemma {:induction false} FlattenAppend(xs: seq<Bytes>, ys: seq<Bytes>)
    ensures Flatten(xs + ys) == Flatten(xs) + Flatten(ys)
  {
    if xs == [] {
      assert xs + ys == ys;
    } else {
      assert (xs + ys)[1..] == xs[1..] + ys;
      FlattenAppend(xs[1..], ys);
    }
  }

  lemma FlattenMore(xs: seq<Bytes>, x: Bytes)
    ensures Flatten(xs + [x]) == Flatten(xs) + x
  {
    FlattenAppend(xs, [x]);
    assert Flatten([x]) == x + Flatten([]);
  }

  /** The SDK's buffer filling: one array of the total size, chunk after chunk. */
  method Concat(chunks: seq<Bytes>) returns (out: array<bv8>)
    ensures fresh(out) && out[..] == Flatten(chunks)
  {
    var total := 0;
    for i := 0 to |chunks|
      invariant total == |Flatten(chunks[..i])|
    {
      assert chunks[..i + 1] == chunks[..i] + [chunks[i]];
      FlattenMore(chunks[..i], chunks[i]);
      total := total + |chunks[i]|;
    }
    assert chunks[..|chunks|] == chunks;
    out := new bv8[total];
    var offset := 0;
    for i := 0 to |chunks|
      invariant offset == |Flatten(chunks[..i])| <= total
      invariant out[..offset] == Flatten(chunks[..i])
    {
      assert chunks[..i + 1] == chunks[..i] + [chunks[i]];
      FlattenMore(chunks[..i], chunks[i]);
      assert chunks == chunks[..i + 1] + chunks[i + 1..];
      FlattenAppend(chunks[..i + 1], chunks[i + 1..]);
      ghost var filled := out[..offset];
      forall k | 0 <= k < |chunks[i]| { out[offset + k] := chunks[i][k]; }
      assert out[..offset] == filled;
      assert out[offset..offset + |chunks[i]|] == chunks[i];
      offset := offset + |chunks[i]|;
      assert out[..offset] == filled + chunks[i];
    }
    assert out[..] == out[..total];
  }

  // ---- The gateway's side: requests out ------------------------------------

  function Bodies(chunks: seq<Bytes>): seq<Frame> {
    if chunks == [] then [] else [Body(chunks[0])] + Bodies(chunks[1..])
  }

  /** The frames of a request whose body arrives in these chunks, while the backend's socket is open. */
  function RequestFrames(verb: string, path: string, headers: Headers, chunks: seq<Bytes>): seq<Frame> {
    [RequestHead(verb, path, headers)] + Bodies(chunks) + [RequestEnd]
  }

  // ---- The gateway's side: the response ------------------------------------

  datatype Ending = Streaming | Clean | Truncated

  /** What the HTTP client has got: no head yet, or a status and the bytes written so far. */
  datatype Response = NoHead | Head(status: int, body: Bytes, ending: Ending)

  datatype Reason = Timeout | Other

  /** `broken`: the backend's connection was lost, not closed; the gateway does not look at the close code. */
  datatype BridgeEvent =
    Receive(frame: Frame) | SocketClosed(broken: bool) | ResponseTimer | IdleTimer | TornDown(reason: Reason)

  /** `live`: the channel is still in the gateway's table; after that nothing here applies any more. */
  datatype Bridge = Bridge(live: bool, response: Response)

  const NEW_BRIDGE := Bridge(true, NoHead)

  function ValidStatus(status: StatusField): int {
    if status.Whole? && 100 <= status.code <= 599 then status.code else 502
  }

  /** An unanswered request gets an error; an answer under way is cut off rather than ended. */
  function Teardown(b: Bridge, reason: Reason): Bridge {
    match b.response
    case NoHead => Bridge(false, Head(if reason == Timeout then 504 else 502, [], Clean))
    case Head(status, body, ending) => Bridge(false,
                                              Head(status, body, if ending == Streaming then Truncated else ending))
  }

  function BridgeStep(b: Bridge, e: BridgeEvent): Bridge {
    if !b.live then b
    else match e
      case Receive(frame) =>
        if b.response.NoHead? then
          match frame
          case ResponseHead(status) => b.(response := Head(ValidStatus(status), [], Streaming))
          case Body(_) => Teardown(b, Other)
          case NotJson => Teardown(b, Other)
          case _ => b.(response := Head(502, [], Streaming))
        else if frame.Body? then b.(response := b.response.(body := b.response.body + frame.data))
        else b
      case SocketClosed(_) =>
        if b.response.NoHead? then Teardown(b, Other)
        else Teardown(b.(response := b.response.(ending := Clean)), Other)
      case ResponseTimer => if b.response.NoHead? then Teardown(b, Timeout) else b
      case IdleTimer => if b.response.NoHead? then b else Teardown(b, Timeout)
      case TornDown(reason) => Teardown(b, reason)
  }

  function BridgeRun(b: Bridge, events: seq<BridgeEvent>): Bridge
    decreases |events|
  {
    if events == [] then b else BridgeRun(BridgeStep(b, events[0]), events[1..])
  }

  lemma {:induction false} DeadBridgeStays(b: Bridge, events: seq<BridgeEvent>)
    requires !b.live
    ensures BridgeRun(b, events) == b
    decreases |events|
  {
    if events != [] { DeadBridgeStays(b, events[1..]); }
  }

  lemma {:induction false} BridgeRunSplit(b: Bridge, xs: seq<BridgeEvent>, ys: seq<BridgeEvent>)
    ensures BridgeRun(b, xs + ys) == BridgeRun(BridgeRun(b, xs), ys)
    decreases |xs|
  {
    if xs == [] {
      assert xs + ys == ys;
    } else {
      assert (xs + ys)[1..] == xs[1..] + ys;
      BridgeRunSplit(BridgeStep(b, xs[0]), xs[1..], ys);
    }
  }

  /** The bytes of the body frames among the events. */
  function BytesIn(events: seq<BridgeEvent>): Bytes {
    if events == [] then []
    else BytesOf(events[0]) + BytesIn(events[1..])
  }

  /** The body bytes an event brings. */
  function BytesOf(e: BridgeEvent): Bytes { if e.Receive? && e.frame.Body? then e.frame.data else [] }

  lemma StreamingStep(b: Bridge, e: BridgeEvent)
    requires b.live && b.response.Head? && b.response.ending == Streaming && BridgeStep(b, e).live
    ensures BridgeStep(b, e).response == Head(b.response.status, b.response.body + BytesOf(e), Streaming)
  {
    assert b.response.body + [] == b.response.body;
  }

  /** While the channel lives, the client has exactly the body bytes that came in. */
  lemma {:induction false} StreamingIsExact(b: Bridge, events: seq<BridgeEvent>)
    requires b.live && b.response.Head? && b.response.ending == Streaming && BridgeRun(b, events).live
    ensures BridgeRun(b, events).response == Head(b.response.status, b.response.body + BytesIn(events), Streaming)
    decreases |events|
  {
    if events == [] {
      assert b.response.body + [] == b.response.body;
    } else {
      var next := BridgeStep(b, events[0]);
      if !next.live { DeadBridgeStays(next, events[1..]); }
      StreamingStep(b, events[0]);
      hide BridgeStep, BytesOf;
      StreamingIsExact(next, events[1..]);
      assert b.response.body + (BytesOf(events[0]) + BytesIn(events[1..])) == b.response.body + BytesOf(events[0])
             + BytesIn(events[1..]);
    }
  }

  /**
   What a client can see of the event that ends a request, whatever came before: no head means an error, 504 for
   a timeout and 502 for everything else; after a head, the end is clean exactly if the backend's socket closed,
   broken or not, and every other end is visibly cut off.
   */
  lemma EndsHonestly(events: seq<BridgeEvent>, last: BridgeEvent)
    requires var b := BridgeRun(NEW_BRIDGE, events); b.live && !BridgeStep(b, last).live
    ensures var b, r := BridgeRun(NEW_BRIDGE, events), BridgeRun(NEW_BRIDGE, events + [last]).response;
      && r.Head? && r.ending != Streaming
      && (b.response.NoHead? ==> r == Head(if last.ResponseTimer?
                                           || last == TornDown(Timeout) then 504 else 502, [], Clean))
      && (b.response.Head? ==> r.status == b.response.status && r.body == b.response.body
                               && (r.ending == Clean <==> last.SocketClosed?))
  {
    BridgeRunSplit(NEW_BRIDGE, events, [last]);
    var b := BridgeRun(NEW_BRIDGE, events);
    assert BridgeRun(b, [last]) == BridgeStep(b, last);
    LiveIsOpen(NEW_BRIDGE, events);
  }

  /**
   Which events end a request, in every run: the close of the backend's socket, a teardown, a first frame that is not
   text, a timer of the side that is waited for; no other. A first text frame is the head, with the status it names if
   that is one and 502 otherwise; after it, body frames add to the body, and nothing else changes anything.
   */
  lemma EndsExactly(events: seq<BridgeEvent>, e: BridgeEvent)
    requires BridgeRun(NEW_BRIDGE, events).live
    ensures var b, t := BridgeRun(NEW_BRIDGE, events), BridgeRun(NEW_BRIDGE, events + [e]);
      && (!t.live <==> || e.SocketClosed? || e.TornDown?
                       || (if b.response.Head? then e.IdleTimer?
                           else e.ResponseTimer? || (e.Receive? && (e.frame.Body? || e.frame.NotJson?))))
      && (t.live && b.response.NoHead? && e.Receive? ==>
            t.response == Head(if e.frame.ResponseHead? && e.frame.status.Whole? && 100 <= e.frame.status.code <= 599
                               then e.frame.status.code else 502, [], Streaming))
      && (t.live && b.response.Head? && e.Receive? && e.frame.Body? ==>
            t.response == b.response.(body := b.response.body + e.frame.data))
      && (t.live && !(e.Receive? && (b.response.NoHead? || e.frame.Body?)) ==> t == b)
  {
    BridgeRunSplit(NEW_BRIDGE, events, [e]);
    var b := BridgeRun(NEW_BRIDGE, events);
    assert BridgeRun(b, [e]) == BridgeStep(b, e) by { assert [e][1..] == []; }
  }

  lemma {:induction false} LiveIsOpen(b: Bridge, events: seq<BridgeEvent>)
    requires b.live && (b.response.Head? ==> b.response.ending == Streaming)
    ensures var t := BridgeRun(b, events); t.live && t.response.Head? ==> t.response.ending == Streaming
    decreases |events|
  {
    if events != [] {
      var next := BridgeStep(b, events[0]);
      if next.live { LiveIsOpen(next, events[1..]); } else { DeadBridgeStays(next, events[1..]); }
    }
  }

  function Receives(frames: seq<Frame>): seq<BridgeEvent> {
    if frames == [] then [] else [Receive(frames[0])] + Receives(frames[1..])
  }

  // ---- Clean ends ----------------------------------------------------------

  /** The frames that came in. */
  function FramesIn(events: seq<BridgeEvent>): seq<Frame> {
    if events == [] then []
    else (if events[0].Receive? then [events[0].frame] else []) + FramesIn(events[1..])
  }

  lemma {:induction false} BodiesAt(chunks: seq<Bytes>)
    ensures |Bodies(chunks)| == |chunks| && forall k :: 0 <= k < |chunks| ==> Bodies(chunks)[k] == Body(chunks[k])
  {
    if chunks != [] { BodiesAt(chunks[1..]); }
  }

  /** After the head, while body frames come in: the body so far is the chunks so far. */
  lemma {:induction false} BodySoFar(b: Bridge, events: seq<BridgeEvent>, chunks: seq<Bytes>)
    requires b.live && b.response.Head? && b.response.ending == Streaming && BridgeRun(b, events).live
    requires FramesIn(events) <= Bodies(chunks)
    ensures |FramesIn(events)| <= |chunks|
    ensures BridgeRun(b, events).response
            == Head(b.response.status, b.response.body + Flatten(chunks[..|FramesIn(events)|]), Streaming)
    decreases |events|
  {
    BodiesAt(chunks);
    if events == [] {
      assert b.response.body + [] == b.response.body;
    } else {
      var e, rest, next := events[0], events[1..], BridgeStep(b, events[0]);
      if !next.live { DeadBridgeStays(next, rest); }
      StreamingStep(b, e);
      if e.Receive? {
        assert FramesIn(events)[0] == e.frame && FramesIn(events)[1..] == FramesIn(rest);
        assert e.frame == Bodies(chunks)[0] == Body(chunks[0]) && Bodies(chunks)[1..] == Bodies(chunks[1..]);
        hide BridgeStep;
        BodySoFar(next, rest, chunks[1..]);
        var k := |FramesIn(rest)|;
        assert chunks[..k + 1][0] == chunks[0] && chunks[..k + 1][1..] == chunks[1..][..k];
        assert b.response.body + chunks[0] + Flatten(chunks[1..][..k]) == b.response.body + Flatten(chunks[..k + 1]);
      } else {
        assert b.response.body + [] == b.response.body;
        hide BridgeStep;
        BodySoFar(next, rest, chunks);
      }
    }
  }

  /** Before the head nothing is seen; from the head on, the chunks that came in. */
  lemma {:induction false} AnswerSoFar(b: Bridge, events: seq<BridgeEvent>, status: StatusField, chunks: seq<Bytes>)
    requires b == NEW_BRIDGE && BridgeRun(b, events).live
    requires FramesIn(events) <= [ResponseHead(status)] + Bodies(chunks)
    ensures |FramesIn(events)| <= |chunks| + 1
    ensures BridgeRun(b, events).response
            == if FramesIn(events) == [] then NoHead
               else Head(ValidStatus(status), Flatten(chunks[..|FramesIn(events)| - 1]), Streaming)
    decreases |events|
  {
    BodiesAt(chunks);
    if events != [] {
      var e, rest, next := events[0], events[1..], BridgeStep(b, events[0]);
      if !next.live { DeadBridgeStays(next, rest); }
      if e.Receive? {
        assert FramesIn(events)[0] == e.frame && FramesIn(events)[1..] == FramesIn(rest);
        assert ([ResponseHead(status)] + Bodies(chunks))[1..] == Bodies(chunks);
        BodySoFar(next, rest, chunks);
        assert [] + Flatten(chunks[..|FramesIn(rest)|]) == Flatten(chunks[..|FramesIn(rest)|]);
      } else {
        AnswerSoFar(next, rest, status, chunks);
      }
    }
  }

  lemma {:induction false} FewerChunksAreShorter(chunks: seq<Bytes>, k: nat)
    requires k <= |chunks| && forall i :: 0 <= i < |chunks| ==> chunks[i] != []
    ensures Flatten(chunks[..k]) == Flatten(chunks) <==> k == |chunks|
  {
    assert chunks[..k] + chunks[k..] == chunks;
    FlattenAppend(chunks[..k], chunks[k..]);
    if k < |chunks| { assert Flatten(chunks[k..]) == chunks[k] + Flatten(chunks[k..][1..]); }
    if k == |chunks| { assert chunks[..k] == chunks; }
  }

  /**
   Whether the backend's connection was closed or lost, the client gets a clean end; and what it got is the whole answer
   exactly if all the answer's frames had come in before.
   */
  lemma CleanEndIsWholeExactlyWhenAllCameIn(events: seq<BridgeEvent>, broken: bool, status: StatusField,
                                            chunks: seq<Bytes>)
    requires BridgeRun(NEW_BRIDGE, events).live && forall i :: 0 <= i < |chunks| ==> chunks[i] != []
    requires FramesIn(events) <= [ResponseHead(status)] + Bodies(chunks) && FramesIn(events) != []
    ensures var r := BridgeRun(NEW_BRIDGE, events + [SocketClosed(broken)]).response;
      && r.Head? && r.status == (if status.Whole? && 100 <= status.code <= 599 then status.code else 502)
      && r.ending == Clean
      && (r.body == Flatten(chunks) <==> FramesIn(events) == [ResponseHead(status)] + Bodies(chunks))
  {
    BodiesAt(chunks);
    AnswerSoFar(NEW_BRIDGE, events, status, chunks);
    BridgeRunSplit(NEW_BRIDGE, events, [SocketClosed(broken)]);
    var b := BridgeRun(NEW_BRIDGE, events);
    assert BridgeRun(b, [SocketClosed(broken)]) == BridgeStep(b, SocketClosed(broken)) by {
      assert [SocketClosed(broken)][1..] == [];
    }
    FewerChunksAreShorter(chunks, |FramesIn(events)| - 1);
  }

  /** A connection lost in the middle of an answer looks like its end: nothing shows that y is missing. */
  lemma LostConnectionLooksComplete(status: StatusField, x: Bytes, y: Bytes)
    requires x != [] && y != []
    ensures var events := [Receive(ResponseHead(status)), Receive(Body(x))] + [SocketClosed(true)];
      && BridgeRun(NEW_BRIDGE, events).response
         == Head(if status.Whole? && 100 <= status.code <= 599 then status.code else 502, x, Clean)
      && x != Flatten([x, y])
  {
    var events := [Receive(ResponseHead(status)), Receive(Body(x))];
    BridgeRunSplit(NEW_BRIDGE, events, [SocketClosed(true)]);
    var headed := BridgeStep(NEW_BRIDGE, events[0]);
    var b := BridgeStep(headed, events[1]);
    assert [] + x == x && b == Bridge(true, Head(ValidStatus(status), x, Streaming));
    assert events[1..] == [events[1]] && [events[1]][1..] == [];
    assert BridgeRun(headed, [events[1]]) == BridgeRun(b, []);
    assert [SocketClosed(true)][1..] == [];
    assert BridgeRun(b, [SocketClosed(true)]) == BridgeRun(BridgeStep(b, SocketClosed(true)), []);
    assert [x, y][1..] == [y];
    assert Flatten([x, y]) == x + Flatten([y]) && Flatten([y]) == y + Flatten([y][1..]);
  }

  // ---- The SDK's side ------------------------------------------------------

  datatype Request = Request(verb: string, path: string, headers: Headers, body: Bytes)

  /** A text body counts by its encoding. */
  datatype Answer = Answer(status: StatusField, body: Option<Bytes>)

  datatype Handled = Returned(answer: Answer) | Threw

  /** The frames an answered request produces, after which the SDK closes the channel. */
  function AnswerFrames(handled: Handled): seq<Frame> {
    match handled
    case Threw => [ResponseHead(Whole(500))]
    case Returned(a) =>
      [ResponseHead(a.status)] + if a.body.Some? && a.body.value != [] then [Body(a.body.value)] else []
  }

  /** The TypeScript side while frames come in: the head seen, the chunks so far, the requests handed out. */
  datatype Server = Server(head: Option<Frame>, chunks: seq<Bytes>, handed: seq<Request>)

  function Serve(s: Server, frame: Frame): (r: Server)
    requires s.head.Some? ==> s.head.value.RequestHead?
    ensures r.head.Some? ==> r.head.value.RequestHead?
  {
    match frame
    case Body(data) => s.(chunks := s.chunks + [data])
    case RequestHead(_, _, _) => s.(head := Some(frame))
    case RequestEnd =>
      if s.head.None? then s
      else s.(handed := s.handed + [Request(s.head.value.verb, s.head.value.path, s.head.value.headers,
                                            Flatten(s.chunks))])
    case _ => s
  }

  function ServeAll(s: Server, frames: seq<Frame>): (r: Server)
    requires s.head.Some? ==> s.head.value.RequestHead?
    ensures r.head.Some? ==> r.head.value.RequestHead?
    decreases |frames|
  {
    if frames == [] then s else ServeAll(Serve(s, frames[0]), frames[1..])
  }

  lemma {:induction false} ServeSplit(s: Server, xs: seq<Frame>, ys: seq<Frame>)
    requires s.head.Some? ==> s.head.value.RequestHead?
    ensures ServeAll(s, xs + ys) == ServeAll(ServeAll(s, xs), ys)
    decreases |xs|
  {
    hide Serve;
    if xs == [] {
      assert xs + ys == ys;
    } else {
      assert (xs + ys)[0] == xs[0] && (xs + ys)[1..] == xs[1..] + ys;
      ServeSplit(Serve(s, xs[0]), xs[1..], ys);
    }
  }

  lemma ServeOneBody(s: Server, chunks: seq<Bytes>)
    requires chunks != [] && (s.head.Some? ==> s.head.value.RequestHead?)
    ensures ServeAll(s, Bodies(chunks)) == ServeAll(s.(chunks := s.chunks + [chunks[0]]), Bodies(chunks[1..]))
  {
    hide Flatten;
    assert Bodies(chunks)[0] == Body(chunks[0]) && Bodies(chunks)[1..] == Bodies(chunks[1..]);
  }

  lemma {:induction false} ServeBodies(s: Server, chunks: seq<Bytes>)
    requires s.head.Some? ==> s.head.value.RequestHead?
    ensures ServeAll(s, Bodies(chunks)) == s.(chunks := s.chunks + chunks)
    decreases |chunks|
  {
    if chunks == [] {
      assert s.chunks + chunks == s.chunks;
    } else {
      ServeOneBody(s, chunks);
      hide ServeAll, Bodies, Flatten;
      assert s.chunks + [chunks[0]] + chunks[1..] == s.chunks + chunks;
      ServeBodies(s.(chunks := s.chunks + [chunks[0]]), chunks[1..]);
    }
  }

  /** However the body is split into chunks, the handler is called once, with the request as it was made. */
  lemma RequestsArriveExactly(verb: string, path: string, headers: Headers, chunks: seq<Bytes>)
    ensures ServeAll(Server(None, [], []), RequestFrames(verb, path, headers, chunks)).handed
            == [Request(verb, path, headers, Flatten(chunks))]
  {
    var head := RequestHead(verb, path, headers);
    var frames := RequestFrames(verb, path, headers, chunks);
    assert frames[1..] == Bodies(chunks) + [RequestEnd];
    var seen := Server(Some(head), [], []);
    assert ServeAll(Server(None, [], []), frames) == ServeAll(seen, frames[1..]);
    ServeSplit(seen, Bodies(chunks), [RequestEnd]);
    ServeBodies(seen, chunks);
    assert [] + chunks == chunks;
    var all := Server(Some(head), chunks, []);
    assert [RequestEnd][1..] == [];
    assert ServeAll(all, [RequestEnd]) == Serve(all, RequestEnd);
  }

  /** The bridge hands the client the handler's body as it is, and its status where that is one. */
  lemma AnswersArriveExactly(handled: Handled, broken: bool)
    ensures BridgeRun(NEW_BRIDGE, Receives(AnswerFrames(handled)) + [SocketClosed(broken)]).response
            == match handled
               case Threw => Head(500, [], Clean)
               case Returned(a) => Head(if a.status.Whole? && 100 <= a.status.code <= 599 then a.status.code else 502,
                                        if a.body.Some? then a.body.value else [], Clean)
  {
    var frames := AnswerFrames(handled);
    var events := Receives(frames);
    BridgeRunSplit(NEW_BRIDGE, events, [SocketClosed(broken)]);
    var headed := BridgeStep(NEW_BRIDGE, events[0]);
    assert events[0] == Receive(frames[0]);
    if |frames| == 1 {
      assert Receives(frames[1..]) == [];
      assert events == [events[0]];
      assert BridgeRun(NEW_BRIDGE, events) == headed;
    } else {
      assert frames[1..] == [frames[1]] && Receives(frames[1..]) == [Receive(frames[1])] + Receives(frames[1..][1..]);
      assert events[1..] == [Receive(frames[1])];
      assert [Receive(frames[1])][1..] == [];
      assert BridgeRun(headed, [Receive(frames[1])]) == BridgeStep(headed, Receive(frames[1]));
      assert BridgeRun(NEW_BRIDGE, events) == BridgeStep(headed, Receive(frames[1]));
      assert [] + frames[1].data == frames[1].data;
    }
    var b := BridgeRun(NEW_BRIDGE, events);
    assert BridgeRun(b, [SocketClosed(broken)]) == BridgeStep(b, SocketClosed(broken));
  }

  /** The whole way: any chunking, any handler. */
  lemma RoundTrip(verb: string, path: string, headers: Headers, chunks: seq<Bytes>, handler: Request -> Handled)
    ensures var handed := ServeAll(Server(None, [], []), RequestFrames(verb, path, headers, chunks)).handed;
      && |handed| == 1
      && BridgeRun(NEW_BRIDGE, Receives(AnswerFrames(handler(handed[0]))) + [SocketClosed(false)]).response
         == match handler(Request(verb, path, headers, Flatten(chunks)))
            case Threw => Head(500, [], Clean)
            case Returned(a) => Head(if a.status.Whole? && 100 <= a.status.code <= 599 then a.status.code else 502,
                                     if a.body.Some? then a.body.value else [], Clean)
  {
    RequestsArriveExactly(verb, path, headers, chunks);
    AnswersArriveExactly(handler(Request(verb, path, headers, Flatten(chunks))), false);
  }

  // ---- Both ends in place --------------------------------------------------

  /** The gateway's end: the HTTP response and the backend's socket. `open` is whether the socket still takes frames. */
  class HttpBridge {
    var live: bool
    var headersSent: bool
    var status: int
    var written: Bytes
    var ended: bool
    var destroyed: bool
    var open: bool
    var out: seq<Frame>

    ghost function View(): Bridge
      reads this
    {
      Bridge(live, if headersSent then Head(status, written, if ended then Clean else if destroyed then Truncated
                                            else Streaming) else NoHead)
    }

    constructor (verb: string, path: string, headers: Headers)
      ensures View() == NEW_BRIDGE && open && out == [RequestHead(verb, path, headers)]
    {
      live, headersSent, status, written, ended, destroyed := true, false, 0, [], false, false;
      open, out := true, [RequestHead(verb, path, headers)];
    }

    method OnData(chunk: Bytes)
      modifies `out
      ensures out == if open then old(out) + Bodies([chunk]) else old(out)
    {
      assert Bodies([chunk]) == [Body(chunk)];
      if open { out := out + [Body(chunk)]; }
    }

    method OnEnd()
      modifies `out
      ensures out == if open then old(out) + [RequestEnd] else old(out)
    {
      if open { out := out + [RequestEnd]; }
    }

    method TeardownResponse(reason: Reason)
      requires live
      modifies this
      ensures View() == Teardown(old(View()), reason) && out == old(out)
      ensures !live && !open && headersSent
      ensures if old(headersSent) then status == old(status) && written == old(written) && ended == old(ended)
                                       && destroyed == (old(destroyed) || !old(ended))
              else status == (if reason == Timeout then 504 else 502) && written == [] && ended && !destroyed
    {
      live, open := false, false;
      if !headersSent {
        headersSent, status, written, ended, destroyed := true, if reason == Timeout then 504 else 502, [], true, false;
      } else if !ended && !destroyed {
        destroyed := true;
      }
    }

    method OnMessage(frame: Frame)
      requires live && (headersSent ==> !ended && !destroyed)
      modifies this
      ensures View() == BridgeStep(old(View()), Receive(frame)) && out == old(out)
      ensures !old(headersSent) && frame.ResponseHead? ==>
                headersSent && !ended && !destroyed && written == []
                && status == if frame.status.Whole? && 100 <= frame.status.code <= 599 then frame.status.code else 502
      ensures !old(headersSent) && (frame.Body? || frame.NotJson?) ==>
                !live && headersSent && status == 502 && ended && written == []
      ensures old(headersSent) ==>
                live && headersSent && status == old(status) && !ended && !destroyed
                && written == old(written) + if frame.Body? then frame.data else []
    {
      if !headersSent {
        if frame.Body? || frame.NotJson? {
          TeardownResponse(Other);
          return;
        }
        headersSent, ended, destroyed, written := true, false, false, [];
        status := if frame.ResponseHead? && frame.status.Whole?
          && 100 <= frame.status.code <= 599 then frame.status.code else 502;
        return;
      }
      if frame.Body? { written := written + frame.data; }
    }

    method OnClose(ghost broken: bool)
      requires live && (headersSent ==> !ended && !destroyed)
      modifies this
      ensures View() == BridgeStep(old(View()), SocketClosed(broken)) && out == old(out)
      ensures !live && headersSent && ended && !destroyed
      ensures if old(headersSent) then status == old(status) && written == old(written)
              else status == 502 && written == []
    {
      if headersSent { ended := true; }
      TeardownResponse(Other);
    }

    method OnResponseTimer()
      requires live && !headersSent
      modifies this
      ensures View() == BridgeStep(old(View()), ResponseTimer) && out == old(out)
      ensures !live && headersSent && status == 504 && written == [] && ended
    {
      TeardownResponse(Timeout);
    }

    method OnIdleTimer()
      requires live && headersSent
      modifies this
      ensures View() == BridgeStep(old(View()), IdleTimer) && out == old(out)
      ensures !live && (!old(ended) ==> destroyed) && ended == old(ended) && written == old(written)
    {
      TeardownResponse(Timeout);
    }
  }

  /** The SDK's end of one channel: the head and the chunks its message handler closes over. */
  class HttpChannelServer {
    var head: Option<Frame>
    var chunks: seq<Bytes>
    ghost var handed: seq<Request>

    ghost predicate Valid()
      reads this
    {
      head.Some? ==> head.value.RequestHead?
    }

    ghost function View(): Server
      reads this
    {
      Server(head, chunks, handed)
    }

    constructor ()
      ensures Valid() && View() == Server(None, [], [])
    {
      head, chunks, handed := None, [], [];
    }

    /** Answers with the request to handle, when the frame completes one. */
    method OnMessage(frame: Frame) returns (request: Option<Request>)
      requires Valid()
      modifies this
      ensures Valid() && View() == Serve(old(View()), frame)
      ensures handed == old(handed) + if request.Some? then [request.value] else []
      ensures request == if frame.RequestEnd? && old(head).Some?
                         then Some(Request(old(head).value.verb, old(head).value.path, old(head).value.headers,
                                           Flatten(old(chunks))))
                         else None
      ensures chunks == old(chunks) + if frame.Body? then [frame.data] else []
      ensures head == if frame.RequestHead? then Some(frame) else old(head)
    {
      request := None;
      if frame.Body? {
        chunks := chunks + [frame.data];
      } else if frame.RequestHead? {
        head := Some(frame);
      } else if frame.RequestEnd? && head.Some? {
        var body := Concat(chunks);
        request := Some(Request(head.value.verb, head.value.path, head.value.headers, body[..]));
        handed := handed + [request.value];
      }
    }
  }
}

/**
 The Python side of streamed bodies: the exchange's queue under several readers, the ASGI adapter on top of it, the
 channel's iterator underneath it, and the buffered handler that ties them to the frames of the gateway.
 */
module Stream {
  import opened Basics
  import opened Http

  // ---- The body queue ------------------------------------------------------

  type Queue = seq<Option<Bytes>>

  function Chunks<T>(xs: seq<T>): seq<Option<T>> { seq(|xs|, i requires 0 <= i < |xs| => Some(xs[i])) }

  function Ends(n: nat): Queue { seq(n, _ => None) }

  /** A read takes the head; an end marker is put back behind everything else. */
  function Read(q: Queue): Queue
    requires q != []
  {
    if q[0].None? then q[1..] + [None] else q[1..]
  }

  /** The next n answers of a queue that is only read. */
  function Answers(q: Queue, n: nat): Queue
    decreases n
  {
    if n == 0 || q == [] then [] else [q[0]] + Answers(Read(q), n - 1)
  }

  /** Once a reader has seen the end, every later reader does. */
  predicate Sticky(answers: Queue) {
    forall i, j :: 0 <= i < j < |answers| && answers[i].None? ==> answers[j].None?
  }

  /** No chunk behind an end marker. */
  predicate WellFed(q: Queue) {
    forall i, j :: 0 <= i < j < |q| && q[i].None? ==> q[j].None?
  }

  lemma {:induction false} AnswersFollowTheQueue(q: Queue, n: nat, k: nat)
    requires k < n && k < |q|
    ensures k < |Answers(q, n)| && Answers(q, n)[k] == q[k]
    decreases n
  {
    if k > 0 {
      assert Read(q)[k - 1] == q[k];
      AnswersFollowTheQueue(Read(q), n - 1, k - 1);
    }
  }

  lemma {:induction false} WellFedAnswersAreSticky(q: Queue, n: nat)
    requires WellFed(q)
    ensures Sticky(Answers(q, n))
    ensures q != [] && q[0].None? ==> forall i :: 0 <= i < |Answers(q, n)| ==> Answers(q, n)[i].None?
    decreases n
  {
    if n > 0 && q != [] {
      var rest := Read(q);
      if q[0].None? { assert forall i :: 0 <= i < |q| ==> q[i].None?; }
      WellFedAnswersAreSticky(rest, n - 1);
    }
  }

  /** The end marker is sticky, for every number of readers, exactly when no chunk was fed behind an end. */
  lemma EndIsStickyExactlyWhenWellFed(q: Queue)
    ensures (forall n: nat :: Sticky(Answers(q, n))) <==> WellFed(q)
  {
    if WellFed(q) {
      forall n: nat ensures Sticky(Answers(q, n)) { WellFedAnswersAreSticky(q, n); }
    } else {
      var i, j :| 0 <= i < j < |q| && q[i].None? && q[j].Some?;
      AnswersFollowTheQueue(q, j + 1, i);
      AnswersFollowTheQueue(q, j + 1, j);
      assert !Sticky(Answers(q, j + 1));
    }
  }

  // ---- Readers and the ASGI adapter ----------------------------------------

  type Task = nat

  /** Where a `receive` call is: at the queue, or waiting for the disconnect. */
  datatype Phase = Reading | AwaitingDisconnect

  datatype Report = More(chunk: Bytes) | EndOfBody | Disconnected

  datatype Asgi = Asgi(queue: Queue, ended: bool, gone: bool, bodyDone: bool, tasks: map<Task, Phase>,
                       fed: seq<Bytes>, reports: seq<Report>)

  const NEW_ASGI := Asgi([], false, false, false, map[], [], [])

  datatype Event = Feed(chunk: Bytes) | EndBody | Abort | Call(task: Task) | Dequeue(task: Task) | Wake(task: Task)

  predicate Enabled(s: Asgi, e: Event) {
    match e
    case Feed(_) => !s.ended
    case Call(t) => t !in s.tasks
    case Dequeue(t) => t in s.tasks && s.tasks[t] == Reading && s.queue != []
    case Wake(t) => t in s.tasks && s.tasks[t] == AwaitingDisconnect && s.gone
    case _ => true
  }

  function Step(s: Asgi, e: Event): Asgi
    requires Enabled(s, e)
  {
    match e
    case Feed(chunk) => s.(queue := s.queue + [Some(chunk)], fed := s.fed + [chunk])
    case EndBody => s.(queue := s.queue + [None], ended := true)
    case Abort => s.(queue := s.queue + [None], ended := true, gone := true)
    case Call(t) => s.(tasks := s.tasks[t := if s.bodyDone then AwaitingDisconnect else Reading])
    case Dequeue(t) =>
      var next := s.(queue := Read(s.queue));
      if s.queue[0].Some? then next.(tasks := s.tasks - {t}, reports := s.reports + [More(s.queue[0].value)])
      else if !s.bodyDone then next.(bodyDone := true, tasks := s.tasks - {t}, reports := s.reports + [EndOfBody])
      else next.(tasks := s.tasks[t := AwaitingDisconnect])
    case Wake(t) => s.(tasks := s.tasks - {t}, reports := s.reports + [Disconnected])
  }

  predicate Run(s: Asgi, events: seq<Event>)
    decreases |events|
  {
    events == [] || (Enabled(s, events[0]) && Run(Step(s, events[0]), events[1..]))
  }

  function Reached(s: Asgi, events: seq<Event>): Asgi
    requires Run(s, events)
    decreases |events|
  {
    if events == [] then s else Reached(Step(s, events[0]), events[1..])
  }

  function ChunksIn(reports: seq<Report>): seq<Bytes> {
    if reports == [] then []
    else ChunksIn(reports[..|reports| - 1]) + if reports[|reports| - 1].More? then [reports[|reports| - 1].chunk]
      else []
  }

  function EndsIn(reports: seq<Report>): nat {
    if reports == [] then 0
    else EndsIn(reports[..|reports| - 1]) + if reports[|reports| - 1].EndOfBody? then 1 else 0
  }

  lemma ReportsMore(reports: seq<Report>, r: Report)
    ensures ChunksIn(reports + [r]) == ChunksIn(reports) + if r.More? then [r.chunk] else []
    ensures EndsIn(reports + [r]) == EndsIn(reports) + if r.EndOfBody? then 1 else 0
  {
    assert (reports + [r])[..|reports|] == reports;
  }

  /** What is queued is what was fed and not handed out yet, then the end markers, of which one always stays. */
  predicate Holds(s: Asgi, pending: seq<Bytes>, n: nat) {
    && s.queue == Chunks(pending) + Ends(n) && s.fed == ChunksIn(s.reports) + pending
    && (s.ended <==> n > 0) && (s.bodyDone ==> pending == [])
  }

  predicate Told(s: Asgi) {
    && (s.gone ==> s.ended) && (s.bodyDone ==> s.ended)
    && EndsIn(s.reports) == (if s.bodyDone then 1 else 0)
    && (Disconnected in s.reports ==> s.gone && s.bodyDone)
    && (forall t :: t in s.tasks && s.tasks[t] == AwaitingDisconnect ==> s.bodyDone)
  }

  ghost predicate Sound(s: Asgi) {
    Told(s) && exists pending, n: nat :: Holds(s, pending, n)
  }

  lemma QueueMore(pending: seq<Bytes>, chunk: Bytes, n: nat)
    ensures Chunks(pending) + Ends(0) + [Some(chunk)] == Chunks(pending + [chunk]) + Ends(0)
    ensures Chunks(pending) + Ends(n) + [None] == Chunks(pending) + Ends(n + 1)
  {
  }

  lemma QueueRead(pending: seq<Bytes>, n: nat)
    requires Chunks(pending) + Ends(n) != []
    ensures var q := Chunks(pending) + Ends(n);
      if pending != [] then q[0] == Some(pending[0]) && Read(q) == Chunks(pending[1..]) + Ends(n)
      else q[0] == None && n > 0 && Read(q) == q
  {
    var q := Chunks(pending) + Ends(n);
    if pending != [] {
      assert q[1..] == Chunks(pending[1..]) + Ends(n);
    } else {
      assert q == Ends(n);
      assert q[1..] + [None] == q;
    }
  }

  lemma DequeueHolds(s: Asgi, t: Task, pending: seq<Bytes>, n: nat)
    requires Told(s) && Holds(s, pending, n) && Enabled(s, Dequeue(t))
    ensures Told(Step(s, Dequeue(t)))
    ensures Holds(Step(s, Dequeue(t)), if pending != [] then pending[1..] else [], n)
  {
    hide Chunks, Ends, ChunksIn, EndsIn, Read;
    QueueRead(pending, n);
    if pending != [] {
      ReportsMore(s.reports, More(pending[0]));
      assert pending == [pending[0]] + pending[1..];
      assert ChunksIn(s.reports) + [pending[0]] + pending[1..] == s.fed;
    } else if !s.bodyDone {
      ReportsMore(s.reports, EndOfBody);
    } else {
    }
  }

  lemma FeedHolds(s: Asgi, e: Event, pending: seq<Bytes>, n: nat)
    requires Told(s) && Holds(s, pending, n) && Enabled(s, e) && (e.Feed? || e.EndBody? || e.Abort?)
    ensures Told(Step(s, e))
    ensures Holds(Step(s, e), if e.Feed? then pending + [e.chunk] else pending, if e.Feed? then 0 else n + 1)
  {
    QueueMore(pending, if e.Feed? then e.chunk else [], n);
    hide Chunks, Ends, ChunksIn, EndsIn;
    if e.Feed? { assert ChunksIn(s.reports) + pending + [e.chunk] == ChunksIn(s.reports) + (pending + [e.chunk]); }
  }

  lemma CallHolds(s: Asgi, e: Event, pending: seq<Bytes>, n: nat)
    requires Told(s) && Holds(s, pending, n) && Enabled(s, e) && (e.Call? || e.Wake?)
    ensures Told(Step(s, e)) && Holds(Step(s, e), pending, n)
  {
    hide Chunks, Ends, ChunksIn, EndsIn;
    ReportsMore(s.reports, Disconnected);
    assert s.fed == ChunksIn(s.reports) + [] + pending;
  }

  lemma StepIsSound(s: Asgi, e: Event)
    requires Sound(s) && Enabled(s, e)
    ensures Sound(Step(s, e))
  {
    var pending, n: nat :| Holds(s, pending, n);
    hide Holds, Told, Step, Enabled;
    match e
    case Dequeue(t) => DequeueHolds(s, t, pending, n);
    case Call(_) => CallHolds(s, e, pending, n);
    case Wake(_) => CallHolds(s, e, pending, n);
    case _ => FeedHolds(s, e, pending, n);
  }

  lemma {:induction false} RunIsSound(s: Asgi, events: seq<Event>)
    requires Sound(s) && Run(s, events)
    ensures Sound(Reached(s, events))
    decreases |events|
  {
    if events != [] {
      StepIsSound(s, events[0]);
      RunIsSound(Step(s, events[0]), events[1..]);
    }
  }

  /** What the channel brought. */
  predicate Brought(s: Asgi, events: seq<Event>) {
    && s.fed == FedIn(events)
    && (s.gone <==> Abort in events)
    && (s.ended <==> EndBody in events || Abort in events)
  }

  function FedIn(events: seq<Event>): seq<Bytes> {
    if events == [] then []
    else FedIn(events[..|events| - 1]) + if events[|events| - 1].Feed? then [events[|events| - 1].chunk] else []
  }

  lemma StepBrings(past: seq<Event>, s: Asgi, e: Event)
    requires Brought(s, past) && Enabled(s, e)
    ensures Brought(Step(s, e), past + [e])
  {
    var more := past + [e];
    assert more[..|past|] == past && forall x :: x in more <==> x in past || x == e;
  }

  lemma {:induction false} RunBrings(past: seq<Event>, s: Asgi, events: seq<Event>)
    requires Brought(s, past) && Run(s, events)
    ensures Brought(Reached(s, events), past + events)
    decreases |events|
  {
    if events == [] {
      assert past + events == past;
    } else {
      var more := past + [events[0]];
      StepBrings(past, s, events[0]);
      hide Brought, Step, Enabled;
      RunBrings(more, Step(s, events[0]), events[1..]);
      assert more + events[1..] == past + events;
    }
  }

  /**
   With any number of concurrent receivers: the chunks handed out are the first ones fed, in order and once each;
   the end of the body is reported at most once, and only when every chunk has been handed out; a disconnect is
   reported only after one, and after the end; and after the end no receiver waits at the queue, after a disconnect none
   at all.
   */
  lemma ReceiversShareTheBody(events: seq<Event>)
    requires Run(NEW_ASGI, events)
    ensures var s := Reached(NEW_ASGI, events);
      && ChunksIn(s.reports) <= FedIn(events)
      && EndsIn(s.reports) <= 1
      && (EndsIn(s.reports) == 1 ==> ChunksIn(s.reports) == FedIn(events) && (EndBody in events || Abort in events))
      && (Disconnected in s.reports ==> Abort in events && EndsIn(s.reports) == 1)
      && (EndBody in events || Abort in events ==>
            s.queue != [] && forall t :: t in s.tasks && s.tasks[t] == Reading ==> Enabled(s, Dequeue(t)))
      && (Abort in events ==> forall t :: t in s.tasks ==> Enabled(s, Dequeue(t)) || Enabled(s, Wake(t)))
  {
    RunBrings([], NEW_ASGI, events);
    assert [] + events == events;
    assert NEW_ASGI.queue == Chunks([]) + Ends(0) && [] == ChunksIn([]) + [];
    assert Holds(NEW_ASGI, [], 0);
    RunIsSound(NEW_ASGI, events);
    var s := Reached(NEW_ASGI, events);
    hide Chunks, ChunksIn, EndsIn;
    var pending, n: nat :| Holds(s, pending, n);
    assert |s.queue| >= n;
  }

  // ---- The channel's iterator ----------------------------------------------

  const EARLY_LIMIT := 64

  /**
   `early` and `later` are history: the frames that came before and after the consumer registered, up to the close.
   */
  datatype Inbox = Inbox(pending: seq<Frame>, inbox: seq<Option<Frame>>, registered: bool, closed: bool,
                         taken: seq<Option<Frame>>, early: seq<Frame>, later: seq<Frame>)

  const NEW_INBOX := Inbox([], [], false, false, [], [], [])

  datatype InboxEvent = Arrive(frame: Frame) | Register | Close | Next

  /** The iteration stops at the end marker. */
  predicate InboxEnabled(c: Inbox, e: InboxEvent) {
    e.Next? ==> c.registered && c.inbox != [] && None !in c.taken
  }

  function InboxStep(c: Inbox, e: InboxEvent): Inbox
    requires InboxEnabled(c, e)
  {
    match e
    case Arrive(frame) =>
      if !c.registered then c.(pending := if |c.pending| < EARLY_LIMIT then c.pending + [frame] else c.pending,
                               early := c.early + [frame])
      else c.(inbox := c.inbox + [Some(frame)], later := if c.closed then c.later else c.later + [frame])
    case Register =>
      if c.registered then c
      else c.(registered := true, pending := [], inbox := Chunks(c.pending) + if c.closed then [None] else [])
    case Close =>
      if c.closed then c
      else c.(closed := true, inbox := if c.registered then c.inbox + [None] else c.inbox)
    case Next => c.(taken := c.taken + [c.inbox[0]], inbox := c.inbox[1..])
  }

  predicate InboxRun(c: Inbox, events: seq<InboxEvent>)
    decreases |events|
  {
    events == [] || (InboxEnabled(c, events[0]) && InboxRun(InboxStep(c, events[0]), events[1..]))
  }

  function InboxReached(c: Inbox, events: seq<InboxEvent>): Inbox
    requires InboxRun(c, events)
    decreases |events|
  {
    if events == [] then c else InboxReached(InboxStep(c, events[0]), events[1..])
  }

  function Kept(c: Inbox): seq<Frame> {
    (if |c.early| <= 64 then c.early else c.early[..64]) + c.later
  }

  /** The stream as the consumer will see it: what was kept, and one end marker once the channel is closed. */
  predicate InOrder(c: Inbox) {
    var kept, all := Kept(c), c.taken + c.inbox;
    if !c.registered then c.taken == [] && c.inbox == [] && c.later == [] && c.pending == kept
    else if !c.closed then c.pending == [] && all == Chunks(kept)
    else c.pending == [] && |all| > |kept| && all[..|kept|] == Chunks(kept) && all[|kept|].None?
         && forall i :: |kept| < i < |all| ==> all[i].Some?
  }

  lemma InboxStepInOrder(c: Inbox, e: InboxEvent)
    requires InOrder(c) && InboxEnabled(c, e)
    ensures InOrder(InboxStep(c, e))
  {
    var t := InboxStep(c, e);
    var all := c.taken + c.inbox;
    match e
    case Arrive(frame) => if c.registered { ArriveInOrder(c, frame); }
    case Next => assert t.taken + t.inbox == all;
    case Register => assert !c.registered ==> [] + t.inbox == t.inbox;
    case Close => assert c.registered && !c.closed ==> t.taken + t.inbox == all + [None];
  }

  lemma ArriveInOrder(c: Inbox, frame: Frame)
    requires InOrder(c) && c.registered
    ensures InOrder(InboxStep(c, Arrive(frame)))
  {
    var t := InboxStep(c, Arrive(frame));
    assert t.taken + t.inbox == c.taken + c.inbox + [Some(frame)];
    if !c.closed {
      assert Kept(t) == Kept(c) + [frame];
      assert Chunks(Kept(c) + [frame]) == Chunks(Kept(c)) + [Some(frame)];
    } else {
      assert Kept(t) == Kept(c);
    }
    hide Kept;
  }

  lemma {:induction false} InboxRunInOrder(c: Inbox, events: seq<InboxEvent>)
    requires InOrder(c) && InboxRun(c, events)
    ensures InOrder(InboxReached(c, events))
    decreases |events|
  {
    if events != [] {
      InboxStepInOrder(c, events[0]);
      InboxRunInOrder(InboxStep(c, events[0]), events[1..]);
    }
  }

  /**
   The iterator yields the frames in the order they came, at most the first 64 of those that came before the
   consumer registered, and then ends - also when the channel was closed before that. It ends only on a closed
   channel, after everything kept, and a registered consumer of a closed channel is never left waiting.
   */
  lemma IterationYieldsThenEnds(events: seq<InboxEvent>)
    requires InboxRun(NEW_INBOX, events)
    ensures var c := InboxReached(NEW_INBOX, events);
      var n := |c.taken|;
      && (None !in c.taken ==> n <= |Kept(c)| && c.taken == Chunks(Kept(c)[..n]))
      && (None in c.taken ==> c.closed && c.taken == Chunks(Kept(c)) + [None])
      && (c.registered && c.closed && None !in c.taken ==> c.inbox != [])
  {
    InboxRunInOrder(NEW_INBOX, events);
    LastIsFirstEnd(NEW_INBOX, events);
    TakenIsPrefix(InboxReached(NEW_INBOX, events));
    hide InOrder, Kept, Chunks;
  }

  lemma TakenIsPrefix(c: Inbox)
    requires InOrder(c) && (None in c.taken ==> c.taken[|c.taken| - 1] == None && c.registered)
    ensures None !in c.taken ==> |c.taken| <= |Kept(c)| && c.taken == Chunks(Kept(c)[..|c.taken|])
    ensures None in c.taken ==> c.closed && c.taken == Chunks(Kept(c)) + [None]
    ensures c.registered && c.closed && None !in c.taken ==> c.inbox != []
  {
    var kept, all, n := Kept(c), c.taken + c.inbox, |c.taken|;
    hide Kept;
    assert forall i :: 0 <= i < n ==> all[i] == c.taken[i];
    if !c.registered {
      assert c.taken == [];
    } else if None in c.taken {
      assert all[n - 1] == None;
      assert n - 1 == |kept|;
      assert c.taken == all[..n - 1] + [None];
    } else {
      assert forall i :: 0 <= i < n ==> c.taken[i] in c.taken && all[i].Some?;
      assert n <= |kept|;
      assert c.taken == Chunks(kept[..n]);
    }
  }

  /** Nothing is taken after the end marker. */
  lemma {:induction false} LastIsFirstEnd(c: Inbox, events: seq<InboxEvent>)
    requires InboxRun(c, events) && (None in c.taken ==> c.taken[|c.taken| - 1] == None)
    requires !c.registered ==> c.taken == []
    ensures var t := InboxReached(c, events); None in t.taken ==> t.taken[|t.taken| - 1] == None && t.registered
    decreases |events|
  {
    if events != [] { LastIsFirstEnd(InboxStep(c, events[0]), events[1..]); }
  }

  // ---- The buffered handler ------------------------------------------------

  /** One request under way: its head frame, its body queue, and whether the channel is gone. */
  datatype Exchange = Exchange(head: Frame, queue: Queue, disconnected: bool)

  /** Frames before the head, second heads and unreadable text are skipped. */
  function Accept(x: Option<Exchange>, frame: Frame): Option<Exchange> {
    match frame
    case Body(data) => if x.Some? then Some(x.value.(queue := x.value.queue + [Some(data)])) else None
    case RequestHead(_, _, _) => if x.Some? then x else Some(Exchange(frame, [], false))
    case RequestEnd => if x.Some? then Some(x.value.(queue := x.value.queue + [None])) else None
    case _ => x
  }

  function AcceptAll(x: Option<Exchange>, frames: seq<Frame>): Option<Exchange>
    decreases |frames|
  {
    if frames == [] then x else AcceptAll(Accept(x, frames[0]), frames[1..])
  }

  function Aborted(x: Exchange): Exchange { x.(queue := x.queue + [None], disconnected := true) }

  /** The chunks before the first end marker. */
  function Collected(q: Queue): seq<Bytes> {
    if q == [] || q[0].None? then [] else [q[0].value] + Collected(q[1..])
  }

  function OrElse(s: string, default: string): string { if s == "" then default else s }

  /** What the user's handler is called with, if at all: a client that went away first is not answered. */
  function Buffered(x: Exchange): Option<Request>
    requires x.head.RequestHead?
  {
    if x.disconnected || None !in x.queue then None
    else Some(Request(OrElse(x.head.verb, "GET"), OrElse(x.head.path, "/"), x.head.headers,
                      Flatten(Collected(x.queue))))
  }

  /** What a frame behind the head puts into the body queue. */
  function Queued(frame: Frame): Queue {
    match frame
    case Body(data) => [Some(data)]
    case RequestEnd => [None]
    case _ => []
  }

  function QueuedBy(frames: seq<Frame>): Queue {
    if frames == [] then [] else Queued(frames[0]) + QueuedBy(frames[1..])
  }

  lemma AcceptQueues(x: Exchange, frame: Frame)
    ensures Accept(Some(x), frame) == Some(x.(queue := x.queue + Queued(frame)))
  {
    assert x.queue + [] == x.queue;
  }

  lemma QueuedByMore(q: Queue, frames: seq<Frame>)
    requires frames != []
    ensures q + Queued(frames[0]) + QueuedBy(frames[1..]) == q + QueuedBy(frames)
  {
    hide Queued;
  }

  lemma {:induction false} FirstHeadStays(x: Exchange, frames: seq<Frame>)
    ensures AcceptAll(Some(x), frames) == Some(x.(queue := x.queue + QueuedBy(frames)))
    decreases |frames|
  {
    if frames == [] {
      assert x.queue + [] == x.queue;
    } else {
      AcceptQueues(x, frames[0]);
      QueuedByMore(x.queue, frames);
      hide Accept, Queued, QueuedBy;
      FirstHeadStays(x.(queue := x.queue + Queued(frames[0])), frames[1..]);
    }
  }

  /** Whatever else comes in: the exchange is that of the first head, with the chunks and ends behind it, in order. */
  lemma {:induction false} OneExchangePerChannel(before: seq<Frame>, head: Frame, rest: seq<Frame>)
    requires head.RequestHead? && forall frame :: frame in before ==> !frame.RequestHead?
    ensures AcceptAll(None, before) == None
    ensures AcceptAll(None, before + ([head] + rest)) == Some(Exchange(head, QueuedBy(rest), false))
    decreases |before|
  {
    var frames := before + ([head] + rest);
    if before == [] {
      assert frames[0] == head && frames[1..] == rest;
      FirstHeadStays(Exchange(head, [], false), rest);
      assert [] + QueuedBy(rest) == QueuedBy(rest);
    } else {
      assert before[0] in before && frames[0] == before[0] && frames[1..] == before[1..] + ([head] + rest);
      assert Accept(None, before[0]) == None;
      OneExchangePerChannel(before[1..], head, rest);
    }
  }

  lemma AcceptOneBody(x: Exchange, chunks: seq<Bytes>, rest: seq<Frame>)
    requires chunks != []
    ensures AcceptAll(Some(x), Bodies(chunks) + rest)
            == AcceptAll(Some(x.(queue := x.queue + [Some(chunks[0])])), Bodies(chunks[1..]) + rest)
  {
    var frames := Bodies(chunks) + rest;
    assert frames[0] == Body(chunks[0]) && frames[1..] == Bodies(chunks[1..]) + rest;
  }

  lemma {:induction false} AcceptBodies(x: Exchange, chunks: seq<Bytes>, rest: seq<Frame>)
    ensures AcceptAll(Some(x), Bodies(chunks) + rest) == AcceptAll(Some(x.(queue := x.queue + Chunks(chunks))), rest)
    decreases |chunks|
  {
    if chunks == [] {
      assert Bodies(chunks) + rest == rest && x.queue + Chunks(chunks) == x.queue;
    } else {
      AcceptOneBody(x, chunks, rest);
      assert x.queue + [Some(chunks[0])] + Chunks(chunks[1..]) == x.queue + Chunks(chunks);
      hide AcceptAll, Accept, Bodies, Chunks;
      AcceptBodies(x.(queue := x.queue + [Some(chunks[0])]), chunks[1..], rest);
    }
  }

  lemma {:induction false} CollectsChunks(chunks: seq<Bytes>, rest: Queue)
    requires rest != [] && rest[0].None?
    ensures Collected(Chunks(chunks) + rest) == chunks
  {
    if chunks == [] {
      assert Chunks(chunks) + rest == rest;
    } else {
      assert (Chunks(chunks) + rest)[1..] == Chunks(chunks[1..]) + rest;
      CollectsChunks(chunks[1..], rest);
    }
  }

  /**
   However the body is split, the handler sees the request as it was made, an empty method or path replaced by its
   default; and when the channel ends before the request does, the handler is not called, nothing is answered, and the
   client gets a 502.
   */
  lemma BufferedArrivesExactly(verb: string, path: string, headers: Headers, chunks: seq<Bytes>)
    ensures var x := AcceptAll(None, RequestFrames(verb, path, headers, chunks));
      x.Some? && x.value.head == RequestHead(verb, path, headers)
      && Buffered(x.value) == Some(Request(if verb == "" then "GET" else verb, if path == "" then "/" else path,
                                          headers, Flatten(chunks)))
    ensures var x := AcceptAll(None, [RequestHead(verb, path, headers)] + Bodies(chunks));
      x.Some? && x.value.head == RequestHead(verb, path, headers)
      && Buffered(x.value).None? && Buffered(Aborted(x.value)).None?
    ensures forall broken :: BridgeRun(NEW_BRIDGE, [SocketClosed(broken)]).response == Head(502, [], Clean)
  {
    forall broken ensures BridgeRun(NEW_BRIDGE, [SocketClosed(broken)]).response == Head(502, [], Clean) {
      assert [SocketClosed(broken)][1..] == [];
      var dead := BridgeStep(NEW_BRIDGE, SocketClosed(broken));
      assert BridgeRun(NEW_BRIDGE, [SocketClosed(broken)]) == BridgeRun(dead, []);
    }
    var head := RequestHead(verb, path, headers);
    var start := Exchange(head, [], false);
    var frames, cut := RequestFrames(verb, path, headers, chunks), [head] + Bodies(chunks);
    assert frames[0] == head && frames[1..] == Bodies(chunks) + [RequestEnd];
    assert cut[0] == head && cut[1..] == Bodies(chunks) + [];
    assert AcceptAll(None, frames) == AcceptAll(Some(start), frames[1..]);
    assert AcceptAll(None, cut) == AcceptAll(Some(start), cut[1..]);
    AcceptBodies(start, chunks, [RequestEnd]);
    AcceptBodies(start, chunks, []);
    assert [] + Chunks(chunks) == Chunks(chunks);
    var all := start.(queue := Chunks(chunks));
    assert AcceptAll(Some(all), [RequestEnd]) == Accept(Some(all), RequestEnd) by { assert [RequestEnd][1..] == []; }
    CollectsChunks(chunks, [None]);
    assert (Chunks(chunks) + [None])[|chunks|] == None;
    assert None !in Chunks(chunks);
  }

  /** The whole way with the buffered Python handler: any chunking, any handler. */
  lemma PythonRoundTrip(verb: string, path: string, headers: Headers, chunks: seq<Bytes>, handler: Request -> Handled)
    requires verb != "" && path != ""
    ensures var x := AcceptAll(None, RequestFrames(verb, path, headers, chunks));
      && x.Some? && x.value.head.RequestHead? && Buffered(x.value).Some?
      && var frames := AnswerFrames(handler(Buffered(x.value).value));
         BridgeRun(NEW_BRIDGE, Receives(frames) + [SocketClosed(false)]).response
         == match handler(Request(verb, path, headers, Flatten(chunks)))
            case Threw => Head(500, [], Clean)
            case Returned(a) => Head(if a.status.Whole? && 100 <= a.status.code <= 599 then a.status.code else 502,
                                     if a.body.Some? then a.body.value else [], Clean)
  {
    BufferedArrivesExactly(verb, path, headers, chunks);
    AnswersArriveExactly(handler(Request(verb, path, headers, Flatten(chunks))), false);
  }

  // ---- In place ------------------------------------------------------------

  /** The exchange a handler works with: a queue of chunks, and a response that is started at most once. */
  class HttpExchange {
    const head: Frame
    var queue: Queue
    var started: bool
    var disconnected: bool
    var out: seq<Frame>

    ghost function View(): Exchange
      reads this
    {
      Exchange(head, queue, disconnected)
    }

    constructor (head: Frame)
      ensures View() == Exchange(head, [], false) && !started && out == []
    {
      this.head, queue, started, disconnected, out := head, [], false, false, [];
    }

    method FeedChunk(chunk: Bytes)
      modifies `queue
      ensures queue == old(queue) + [Some(chunk)]
    {
      queue := queue + [Some(chunk)];
    }

    method EndOfRequest()
      modifies `queue
      ensures queue == old(queue) + [None]
    {
      queue := queue + [None];
    }

    method AbortExchange()
      modifies `queue, `disconnected
      ensures View() == Aborted(old(View()))
      ensures disconnected && queue == old(queue) + [None]
    {
      disconnected := true;
      queue := queue + [None];
    }

    method ReadChunk() returns (chunk: Option<Bytes>)
      requires queue != []
      modifies `queue
      ensures chunk == old(queue)[0] && queue == Read(old(queue))
      ensures queue == old(queue)[1..] + if chunk.None? then [None] else []
    {
      chunk := queue[0];
      queue := queue[1..];
      if chunk.None? { queue := queue + [None]; }
    }

    /** The response head goes out once; a second start is refused, and so is everything after a disconnect. */
    method Start(status: StatusField) returns (ok: bool)
      modifies `started, `out
      ensures ok == (!old(started) && !disconnected)
      ensures started == true && out == if ok then old(out) + [ResponseHead(status)] else old(out)
    {
      if started { return false; }
      started := true;
      if disconnected { return false; }
      out := out + [ResponseHead(status)];
      return true;
    }

    method Write(chunk: Bytes) returns (ok: bool)
      modifies `out
      ensures ok == (started && (chunk == [] || !disconnected))
      ensures out == if ok && chunk != [] then old(out) + [Body(chunk)] else old(out)
    {
      if !started { return false; }
      if chunk == [] { return true; }
      if disconnected { return false; }
      out := out + [Body(chunk)];
      return true;
    }

    /** Collects the body: everything up to the first end marker. */
    method CollectBody() returns (chunks: seq<Bytes>)
      requires None in queue
      modifies `queue
      ensures chunks == Collected(old(queue))
    {
      chunks := [];
      var chunk := ReadChunk();
      while chunk.Some?
        invariant chunk.Some? ==> None in queue
        invariant chunk.None? ==> chunks == Collected(old(queue))
        invariant chunk.Some? ==> chunks + [chunk.value] + Collected(queue) == Collected(old(queue))
        decreases chunk.Some?, if None in queue then FirstEnd(queue) else 0
      {
        chunks := chunks + [chunk.value];
        ghost var rest := queue;
        FirstEndMoves(queue);
        chunk := ReadChunk();
      }
    }

    /** The buffered handler's turn: the request, unless the client is gone. */
    method BufferedRequest() returns (request: Option<Request>)
      requires None in queue && head.RequestHead?
      modifies `queue
      ensures request == Buffered(old(View()))
    {
      var chunks := CollectBody();
      if disconnected { return None; }
      var body := Concat(chunks);
      return Some(Request(OrElse(head.verb, "GET"), OrElse(head.path, "/"), head.headers, body[..]));
    }
  }

  /** The channel wrapper: early buffer, inbox of the registered consumer, closed flag. */
  class GatewayChannel {
    var pending: seq<Frame>
    var inbox: seq<Option<Frame>>
    var registered: bool
    var closed: bool
    ghost var taken: seq<Option<Frame>>
    ghost var early: seq<Frame>
    ghost var later: seq<Frame>

    ghost function View(): Inbox
      reads this
    {
      Inbox(pending, inbox, registered, closed, taken, early, later)
    }

    constructor ()
      ensures View() == NEW_INBOX
    {
      pending, inbox, registered, closed, taken, early, later := [], [], false, false, [], [], [];
    }

    method OnFrame(frame: Frame)
      modifies this
      ensures View() == InboxStep(old(View()), Arrive(frame))
      ensures inbox == if registered then old(inbox) + [Some(frame)] else old(inbox)
      ensures pending == if registered || |old(pending)| >= 64 then old(pending) else old(pending) + [frame]
    {
      if registered {
        inbox := inbox + [Some(frame)];
        if !closed { later := later + [frame]; }
      } else {
        if |pending| < EARLY_LIMIT { pending := pending + [frame]; }
        early := early + [frame];
      }
    }

    method MarkClosed()
      modifies this
      ensures View() == InboxStep(old(View()), Close)
      ensures closed && inbox == if registered && !old(closed) then old(inbox) + [None] else old(inbox)
    {
      if closed { return; }
      closed := true;
      if registered { inbox := inbox + [None]; }
    }

    /** The first iteration registers: the early frames are flushed, and a channel closed already ends right there. */
    method Iterate()
      modifies this
      ensures View() == InboxStep(old(View()), Register)
      ensures registered && (!old(registered) ==> pending == [] && |inbox| == |old(pending)| + if closed then 1 else 0)
    {
      if registered { return; }
      registered := true;
      var early := pending;
      inbox, pending := [], [];
      for i := 0 to |early|
        invariant inbox == Chunks(early[..i])
        modifies `inbox
      {
        assert early[..i + 1] == early[..i] + [early[i]];
        inbox := inbox + [Some(early[i])];
      }
      assert early[..|early|] == early;
      if closed { inbox := inbox + [None]; }
    }

    method NextMessage() returns (item: Option<Frame>)
      requires InboxEnabled(View(), Next)
      modifies `inbox, `taken
      ensures item == old(inbox)[0] && View() == InboxStep(old(View()), Next)
    {
      item := inbox[0];
      inbox := inbox[1..];
      taken := taken + [item];
    }
  }

  function FirstEnd(q: Queue): nat
    requires None in q
  {
    if q[0].None? then 0 else 1 + FirstEnd(q[1..])
  }

  lemma FirstEndMoves(q: Queue)
    requires None in q
    ensures q[0].Some? ==> None in q[1..] && FirstEnd(q) == 1 + FirstEnd(q[1..])
  {
  }
}

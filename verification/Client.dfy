/**
 The client SDK's control operations and its connections. The protocol has no correlation ids, so operations run one at
 a time and are matched with the replies by order alone; and no listener asks which connection a reply or a close event
 belongs to. The gateway's side is one answer per request, in request order (`Controls`).
 */
module Client {
  import opened Basics
  import opened Controls

  /** Operations are numbered in the order they are issued. */
  type OpId = nat

  type Sock = nat

  /** `tag` is the request the gateway answered; the wire does not carry it. */
  datatype Reply = Reply(tag: OpId, answer: Answer)

  datatype Outcome = Replied(tag: OpId) | Refused(tag: OpId) | TimedOut | Closed | NotConnected

  /** What is under way on a connection, both ways. */
  datatype Wire = Wire(upstream: seq<OpId>, downstream: seq<Reply>)

  datatype Phase = Idle | Connecting | Connected | Shut

  /**
   The connections. `phase`, `socket` and `userClosed` are the SDK's fields. `attempts` are the sockets whose handshake
   is under way, with whether a retry made them; `timers` are the pending retries; `wires` are the sockets that
   completed their handshake and whose close event is still to come.
   */
  datatype Net = Net(phase: Phase, socket: Option<Sock>, userClosed: bool, reconnect: bool,
                     attempts: map<Sock, bool>, timers: nat, wires: map<Sock, Wire>, used: set<Sock>)

  /** `ops` are the operations issued so far; those before `next` were started; `pending` is the one in progress. */
  datatype Client = Client(ops: seq<Kind>, next: nat, pending: Option<OpId>, settled: map<OpId, Outcome>, net: Net)

  function NewNet(reconnect: bool): Net { Net(Idle, None, false, reconnect, map[], 0, map[], {}) }

  function New(reconnect: bool): Client { Client([], 0, None, map[], NewNet(reconnect)) }

  datatype Event =
    | Issue(kind: Kind)
    | Start
    | Respond(sock: Sock, answer: Answer)
    | Receive(sock: Sock)
    | OtherMessage
    | Timeout
    | Connect(sock: Sock)
    | Fires(sock: Sock)
    | Established(sock: Sock)
    | AttemptFails(sock: Sock)
    | CloseSeen(sock: Sock)
    | UserCloses

  // ---- Connections ---------------------------------------------------------

  predicate Busy(phase: Phase) { phase == Connected || phase == Connecting }

  function Dial(n: Net, s: Sock, retry: bool): Net {
    n.(phase := Connecting, socket := Some(s), attempts := n.attempts[s := retry], used := n.used + {s})
  }

  /** `connect()` does nothing while connected or connecting. */
  function Begin(n: Net, s: Sock): Net { if Busy(n.phase) then n else Dial(n.(userClosed := false), s, false) }

  /** A retry fires; after `close()` it does nothing. */
  function Retry(n: Net, s: Sock): Net
    requires n.timers > 0
  {
    var fired := n.(timers := n.timers - 1);
    if n.userClosed then fired else Dial(fired, s, true)
  }

  /** The handshake is done: from now on the socket's messages and its close event are listened to. */
  function Listen(n: Net, s: Sock): Net {
    n.(attempts := n.attempts - {s}, wires := n.wires[s := Wire([], [])], phase := Connected)
  }

  function GiveUp(n: Net, s: Sock): Net
    requires s in n.attempts
  {
    n.(attempts := n.attempts - {s}, timers := if n.attempts[s] then n.timers + 1 else n.timers)
  }

  /** `handleClose`, which takes any socket's close event for the current one's. */
  function Lose(n: Net, s: Sock): Net {
    var gone := n.(wires := n.wires - {s}, socket := None);
    if n.userClosed || !n.reconnect then gone.(phase := Shut)
    else if Busy(n.phase) then gone.(phase := Connecting, timers := n.timers + 1)
    else gone
  }

  /** `close()` leaves the old socket's listeners on. */
  function ShutNet(n: Net): Net { n.(userClosed := true, phase := Shut, socket := None) }

  predicate CanSend(n: Net) { n.phase == Connected && n.socket.Some? }

  function Send(n: Net, op: OpId): Net
    requires CanSend(n)
  {
    var s := n.socket.value;
    if s in n.wires then n.(wires := n.wires[s := n.wires[s].(upstream := n.wires[s].upstream + [op])]) else n
  }

  // ---- Operations ----------------------------------------------------------

  /** The next operation starts when the one before has settled. */
  predicate Enabled(c: Client, e: Event) {
    match e
    case Start => c.next < |c.ops| && c.pending.None?
    case Respond(s, answer) =>
      s in c.net.wires && c.net.wires[s].upstream != [] && c.net.wires[s].upstream[0] < |c.ops|
      && Fits(c.ops[c.net.wires[s].upstream[0]], answer)
    case Receive(s) => s in c.net.wires && c.net.wires[s].downstream != []
    case Timeout => c.pending.Some?
    case Connect(s) => s !in c.net.used
    case Fires(s) => c.net.timers > 0 && s !in c.net.used
    case Established(s) => s in c.net.attempts
    case AttemptFails(s) => s in c.net.attempts
    case CloseSeen(s) => s in c.net.wires
    case _ => true
  }

  function Settle(c: Client, outcome: Outcome): Client
    requires c.pending.Some?
  {
    c.(pending := None, settled := c.settled[c.pending.value := outcome])
  }

  /** What a received message settles: a reply of the kind waited for, or any error. */
  predicate Settles(c: Client, reply: Reply) {
    c.pending.Some? && c.pending.value < |c.ops| && Fits(c.ops[c.pending.value], reply.answer)
  }

  function OutcomeOf(reply: Reply): Outcome { if reply.answer.Granted? then Replied(reply.tag) else Refused(reply.tag) }

  function WithWire(c: Client, s: Sock, w: Wire): Client { c.(net := c.net.(wires := c.net.wires[s := w])) }

  function Responded(w: Wire, answer: Answer): Wire
    requires w.upstream != []
  {
    Wire(w.upstream[1..], w.downstream + [Reply(w.upstream[0], answer)])
  }

  /** `routeMessage`, whichever socket the message came on. */
  function Route(c: Client, s: Sock): Client
    requires Enabled(c, Receive(s))
  {
    var w := c.net.wires[s];
    var rest := WithWire(c, s, w.(downstream := w.downstream[1..]));
    if Settles(c, w.downstream[0]) then Settle(rest, OutcomeOf(w.downstream[0])) else rest
  }

  function Started(c: Client): Client {
    if CanSend(c.net) then c.(next := c.next + 1, pending := Some(c.next), net := Send(c.net, c.next))
    else c.(next := c.next + 1, settled := c.settled[c.next := NotConnected])
  }

  function Lost(c: Client, s: Sock): Client {
    var gone := c.(net := Lose(c.net, s));
    if c.pending.Some? then Settle(gone, Closed) else gone
  }

  function Step(c: Client, e: Event): Client
    requires Enabled(c, e)
  {
    match e
    case Issue(kind) => c.(ops := c.ops + [kind])
    case Start => Started(c)
    case Respond(s, answer) => WithWire(c, s, Responded(c.net.wires[s], answer))
    case Receive(s) => Route(c, s)
    case OtherMessage => c
    case Timeout => Settle(c, TimedOut)
    case Connect(s) => c.(net := Begin(c.net, s))
    case Fires(s) => c.(net := Retry(c.net, s))
    case Established(s) => c.(net := Listen(c.net, s))
    case AttemptFails(s) => c.(net := GiveUp(c.net, s))
    case CloseSeen(s) => Lost(c, s)
    case UserCloses => c.(net := ShutNet(c.net))
  }

  predicate Run(c: Client, events: seq<Event>)
    decreases |events|
  {
    events == [] || (Enabled(c, events[0]) && Run(Step(c, events[0]), events[1..]))
  }

  function Reached(c: Client, events: seq<Event>): Client
    requires Run(c, events)
    decreases |events|
  {
    if events == [] then c else Reached(Step(c, events[0]), events[1..])
  }

  // ---- Every run -----------------------------------------------------------

  /** The requests sent on a connection whose answers the client has not seen yet, oldest first. */
  function Outstanding(w: Wire): seq<OpId> {
    seq(|w.downstream|, i requires 0 <= i < |w.downstream| => w.downstream[i].tag) + w.upstream
  }

  /** Requests go out in increasing order, and no tag is from the future. */
  predicate Ordered(xs: seq<OpId>, next: nat) {
    && (forall i, j :: 0 <= i < j < |xs| ==> xs[i] < xs[j])
    && (forall i :: 0 <= i < |xs| ==> xs[i] < next)
  }

  predicate Answerable(w: Wire, ops: seq<Kind>) {
    forall r :: r in w.downstream ==> r.tag < |ops| && Fits(ops[r.tag], r.answer)
  }

  predicate WiresOk(wires: map<Sock, Wire>, ops: seq<Kind>, next: nat) {
    forall s :: s in wires ==> Ordered(Outstanding(wires[s]), next) && Answerable(wires[s], ops)
  }

  /** An operation is settled by the answer to itself or to an earlier one, never to a later one. */
  predicate Backward(op: OpId, o: Outcome) {
    (o.Replied? ==> o.tag <= op) && (o.Refused? ==> o.tag <= op)
  }

  predicate OwnAnswer(op: OpId, o: Outcome) {
    (o.Replied? ==> o.tag == op) && (o.Refused? ==> o.tag == op)
  }

  /** Exactly the started operations but the pending one are settled. */
  ghost predicate SettledInOrder(c: Client) {
    && c.next <= |c.ops|
    && (c.pending.Some? ==> c.pending.value + 1 == c.next)
    && (forall op: OpId :: op in c.settled <==> op < c.next && c.pending != Some(op))
    && (forall op: OpId :: op in c.settled ==> Backward(op, c.settled[op]))
  }

  ghost predicate Sound(c: Client) { SettledInOrder(c) && WiresOk(c.net.wires, c.ops, c.next) }

  lemma RespondedIs(w: Wire, answer: Answer, ops: seq<Kind>, next: nat)
    requires w.upstream != [] && w.upstream[0] < |ops| && Fits(ops[w.upstream[0]], answer) && Answerable(w, ops)
    ensures Outstanding(Responded(w, answer)) == Outstanding(w) && Answerable(Responded(w, answer), ops)
  {
    var t := Responded(w, answer);
    assert forall i :: 0 <= i < |Outstanding(w)| ==> Outstanding(t)[i] == Outstanding(w)[i];
    assert forall r :: r in t.downstream ==> r in w.downstream || r == Reply(w.upstream[0], answer);
  }

  lemma PoppedIs(w: Wire, ops: seq<Kind>, next: nat)
    requires w.downstream != [] && Ordered(Outstanding(w), next) && Answerable(w, ops)
    ensures var t := w.(downstream := w.downstream[1..]);
      && Outstanding(w) == [w.downstream[0].tag] + Outstanding(t) && Ordered(Outstanding(t), next) && Answerable(t, ops)
    ensures w.downstream[0] in w.downstream
  {
    var t, out := w.(downstream := w.downstream[1..]), Outstanding(w);
    assert forall i :: 0 <= i < |Outstanding(t)| ==> Outstanding(t)[i] == out[i + 1];
    assert forall r :: r in t.downstream ==> r in w.downstream;
  }

  lemma SentIs(w: Wire, ops: seq<Kind>, next: nat)
    requires Ordered(Outstanding(w), next) && Answerable(w, ops)
    ensures var t := w.(upstream := w.upstream + [next]);
      Outstanding(t) == Outstanding(w) + [next] && Ordered(Outstanding(t), next + 1) && Answerable(t, ops)
  {
  }

  lemma OneWire(wires: map<Sock, Wire>, ops: seq<Kind>, next: nat, later: nat, s: Sock, w: Wire)
    requires WiresOk(wires, ops, next) && next <= later && Ordered(Outstanding(w), later) && Answerable(w, ops)
    ensures WiresOk(wires[s := w], ops, later)
  {
    hide Outstanding, Answerable;
  }

  lemma MoreOps(wires: map<Sock, Wire>, ops: seq<Kind>, next: nat, kind: Kind)
    requires WiresOk(wires, ops, next)
    ensures WiresOk(wires, ops + [kind], next)
  {
    hide Ordered, Outstanding;
  }

  lemma Later(wires: map<Sock, Wire>, ops: seq<Kind>, next: nat)
    requires WiresOk(wires, ops, next)
    ensures WiresOk(wires, ops, next + 1)
  {
    hide Outstanding, Answerable;
  }

  /** Settling the pending operation by the answer to itself or an earlier one keeps the order of settlement. */
  lemma SettleKeepsOrder(c: Client, outcome: Outcome)
    requires SettledInOrder(c) && c.pending.Some? && Backward(c.pending.value, outcome)
    ensures SettledInOrder(Settle(c, outcome))
  {
  }

  lemma StartIsSound(c: Client)
    requires Sound(c) && Enabled(c, Start)
    ensures Sound(Started(c))
  {
    var n := c.net;
    if CanSend(n) && n.socket.value in n.wires {
      SentIs(n.wires[n.socket.value], c.ops, c.next);
      OneWire(n.wires, c.ops, c.next, c.next + 1, n.socket.value, Send(n, c.next).wires[n.socket.value]);
    } else {
      Later(n.wires, c.ops, c.next);
    }
    hide WiresOk;
  }

  lemma RouteIsSound(c: Client, s: Sock)
    requires Sound(c) && Enabled(c, Receive(s))
    ensures Sound(Route(c, s))
  {
    var w := c.net.wires[s];
    PoppedIs(w, c.ops, c.next);
    OneWire(c.net.wires, c.ops, c.next, c.next, s, w.(downstream := w.downstream[1..]));
    hide WiresOk, Outstanding;
    if Settles(c, w.downstream[0]) {
      FirstIsPast(c, s);
      SettleKeepsOrder(c, OutcomeOf(w.downstream[0]));
    }
  }

  lemma FirstIsPast(c: Client, s: Sock)
    requires Sound(c) && Enabled(c, Receive(s))
    ensures c.net.wires[s].downstream[0].tag < c.next
  {
    assert Outstanding(c.net.wires[s])[0] == c.net.wires[s].downstream[0].tag;
  }

  lemma FewerWires(wires: map<Sock, Wire>, ops: seq<Kind>, next: nat, s: Sock)
    requires WiresOk(wires, ops, next)
    ensures WiresOk(wires - {s}, ops, next)
  {
    hide Outstanding, Answerable, Ordered;
  }

  lemma LostIsSound(c: Client, s: Sock)
    requires Sound(c)
    ensures Sound(Lost(c, s))
  {
    FewerWires(c.net.wires, c.ops, c.next, s);
    hide WiresOk;
    if c.pending.Some? { SettleKeepsOrder(c, Closed); }
  }

  lemma StepIsSound(c: Client, e: Event)
    requires Sound(c) && Enabled(c, e)
    ensures Sound(Step(c, e))
  {
    match e
    case Issue(kind) => MoreOps(c.net.wires, c.ops, c.next, kind);
    case Start => StartIsSound(c);
    case Respond(s, answer) =>
      RespondedIs(c.net.wires[s], answer, c.ops, c.next);
      OneWire(c.net.wires, c.ops, c.next, c.next, s, Responded(c.net.wires[s], answer));
    case Receive(s) => RouteIsSound(c, s);
    case Timeout => SettleKeepsOrder(c, TimedOut);
    case Established(s) => OneWire(c.net.wires, c.ops, c.next, c.next, s, Wire([], []));
    case CloseSeen(s) => LostIsSound(c, s);
    case _ =>
  }

  lemma {:induction false} RunIsSound(c: Client, events: seq<Event>)
    requires Sound(c) && Run(c, events)
    ensures Sound(Reached(c, events))
    decreases |events|
  {
    hide Sound, Step, Enabled;
    if events != [] {
      StepIsSound(c, events[0]);
      RunIsSound(Step(c, events[0]), events[1..]);
    }
  }

  lemma NewIsSound(reconnect: bool)
    ensures Sound(New(reconnect))
  {
  }

  lemma StepKeepsSettled(c: Client, e: Event, op: OpId)
    requires Sound(c) && Enabled(c, e) && op in c.settled
    ensures op in Step(c, e).settled && Step(c, e).settled[op] == c.settled[op]
  {
    hide WiresOk;
  }

  /** A settled operation stays as it settled. */
  lemma {:induction false} SettledOnce(c: Client, events: seq<Event>, op: OpId)
    requires Sound(c) && Run(c, events) && op in c.settled
    ensures op in Reached(c, events).settled && Reached(c, events).settled[op] == c.settled[op]
    decreases |events|
  {
    hide Sound, Step, Enabled;
    if events != [] {
      StepIsSound(c, events[0]);
      StepKeepsSettled(c, events[0], op);
      SettledOnce(Step(c, events[0]), events[1..], op);
    }
  }

  /**
   In every run, with any number of connections: at most one operation is in progress, operations settle in the order
   they were issued, none twice, and each by the answer to itself or to an earlier one.
   */
  lemma OperationsAreSerial(reconnect: bool, events: seq<Event>)
    requires Run(New(reconnect), events)
    ensures var c := Reached(New(reconnect), events);
      && (forall op: OpId :: op in c.settled <==> op < c.next && c.pending != Some(op))
      && (c.pending.Some? ==> c.pending.value + 1 == c.next)
      && (forall op: OpId :: op in c.settled ==> Backward(op, c.settled[op]))
  {
    NewIsSound(reconnect);
    RunIsSound(New(reconnect), events);
  }

  /**
   In every run, the answer that settles the pending operation is its own exactly when its request is the only one
   unanswered on the connection the answer came on.
   */
  lemma AnswerIsOwnExactlyWhenNothingIsStale(reconnect: bool, events: seq<Event>, s: Sock)
    requires Run(New(reconnect), events)
    requires var c := Reached(New(reconnect), events);
      Enabled(c, Receive(s)) && c.pending.Some? && Step(c, Receive(s)).pending.None?
    ensures var c := Reached(New(reconnect), events);
      OwnAnswer(c.pending.value, Step(c, Receive(s)).settled[c.pending.value])
      <==> Outstanding(c.net.wires[s]) == [c.pending.value]
  {
    NewIsSound(reconnect);
    RunIsSound(New(reconnect), events);
    var c := Reached(New(reconnect), events);
    var w := c.net.wires[s];
    PoppedIs(w, c.ops, c.next);
    var out := Outstanding(w);
    assert Ordered(out, c.next) && out[0] == w.downstream[0].tag;
    hide Outstanding, Reached, Run, WiresOk;
    assert |out| > 1 ==> out[0] < out[1] < c.next;
    assert |out| == 1 ==> out == [out[0]];
  }

  // ---- One connection at a time --------------------------------------------

  /** Nothing of an earlier connection is left: no close event to come, no attempt under way, no retry pending. */
  predicate AtRest(n: Net) { n.wires == map[] && n.attempts == map[] && n.timers == 0 }

  /** A `connect()` that dials. */
  predicate Dials(n: Net, e: Event) { e.Connect? && !Busy(n.phase) }

  /** Every `connect()` that dials finds the client at rest. */
  predicate Careful(c: Client, events: seq<Event>)
    requires Run(c, events)
    decreases |events|
  {
    events == [] || ((Dials(c.net, events[0]) ==> AtRest(c.net)) && Careful(Step(c, events[0]), events[1..]))
  }

  /** A client that does not retry makes no connection by itself. */
  predicate Unretried(n: Net) { n.timers == 0 && forall s :: s in n.attempts ==> !n.attempts[s] }

  /**
   A connection, an attempt or a pending retry, at most one of them; and what the client can send on is that connection.
   */
  predicate Lone(n: Net) {
    && n.wires.Keys + n.attempts.Keys <= n.used
    && |n.wires| + |n.attempts| + n.timers <= 1
    && (n.socket.Some? ==> n.socket.value in n.wires || n.socket.value in n.attempts
                           || (n.wires == map[] && n.attempts == map[] && n.phase != Connected))
    && (n.attempts != map[] ==> n.phase != Connected)
    && (n.reconnect || Unretried(n))
  }

  lemma DialIsOk(n: Net, s: Sock, retry: bool)
    requires Lone(n) && s !in n.used && AtRest(n) && (retry ==> n.reconnect)
    ensures Lone(Dial(n, s, retry))
  {
    Larger(n.attempts, s, retry);
  }

  lemma ListenIsOk(n: Net, s: Sock)
    requires Lone(n) && s in n.attempts
    ensures Lone(Listen(n, s))
  {
    Smaller(n.attempts, s);
    Larger(n.wires, s, Wire([], []));
    if n.socket.Some? && n.socket.value in n.attempts { Only(n.attempts, s, n.socket.value); }
  }

  lemma GiveUpIsOk(n: Net, s: Sock)
    requires Lone(n) && s in n.attempts
    ensures Lone(GiveUp(n, s))
  {
    Smaller(n.attempts, s);
  }

  lemma LoseIsOk(n: Net, s: Sock)
    requires Lone(n) && s in n.wires
    ensures Lone(Lose(n, s))
  {
    Smaller(n.wires, s);
  }

  lemma SendIsOk(n: Net, op: OpId)
    requires Lone(n) && CanSend(n)
    ensures Lone(Send(n, op))
  {
    if n.socket.value in n.wires {
      Larger(n.wires, n.socket.value, Send(n, op).wires[n.socket.value]);
    }
  }

  lemma WireIsOk(c: Client, s: Sock, w: Wire)
    requires Lone(c.net) && s in c.net.wires
    ensures Lone(WithWire(c, s, w).net)
  {
    Larger(c.net.wires, s, w);
  }

  lemma StepKeepsNet(c: Client, e: Event)
    requires Lone(c.net) && Enabled(c, e) && (Dials(c.net, e) ==> AtRest(c.net))
    ensures Lone(Step(c, e).net)
  {
    hide Lone, Begin, Retry, Listen, GiveUp, Lose, ShutNet, Send, Responded, AtRest;
    match e
    case Start => if CanSend(c.net) { SendIsOk(c.net, c.next); }
    case Respond(s, answer) => WireIsOk(c, s, Responded(c.net.wires[s], answer));
    case Receive(s) => WireIsOk(c, s, c.net.wires[s].(downstream := c.net.wires[s].downstream[1..]));
    case Connect(s) => ConnectIsOk(c.net, s);
    case Fires(s) => RetryIsOk(c.net, s);
    case Established(s) => ListenIsOk(c.net, s);
    case AttemptFails(s) => GiveUpIsOk(c.net, s);
    case CloseSeen(s) => LoseIsOk(c.net, s);
    case UserCloses => ShutIsOk(c.net);
    case _ =>
  }

  lemma ConnectIsOk(n: Net, s: Sock)
    requires Lone(n) && s !in n.used && (!Busy(n.phase) ==> AtRest(n))
    ensures Lone(Begin(n, s))
  {
    if !Busy(n.phase) {
      ShutIsOk(n);
      hide Lone, Dial;
      DialIsOk(n.(userClosed := false), s, false);
    }
  }

  lemma RetryIsOk(n: Net, s: Sock)
    requires Lone(n) && n.timers > 0 && s !in n.used
    ensures Lone(Retry(n, s))
  {
    assert n.wires == map[] && n.attempts == map[];
    assert Lone(n.(timers := n.timers - 1));
    hide Lone, Dial;
    if !n.userClosed { DialIsOk(n.(timers := n.timers - 1), s, true); }
  }

  lemma ShutIsOk(n: Net)
    requires Lone(n)
    ensures Lone(ShutNet(n)) && Lone(n.(userClosed := false))
  {
  }

  // ---- Answers without timeouts --------------------------------------------

  /** On each connection only the pending operation's request is unanswered, and on one connection at most. */
  ghost predicate Clean(wires: map<Sock, Wire>, pending: Option<OpId>) {
    && (forall s :: s in wires && Outstanding(wires[s]) != [] ==>
                      pending.Some? && Outstanding(wires[s]) == [pending.value])
    && (forall s, t ::
          s in wires && t in wires && Outstanding(wires[s]) != [] && Outstanding(wires[t]) != [] ==> s == t)
  }

  ghost predicate AllOwn(c: Client) { forall op: OpId :: op in c.settled ==> OwnAnswer(op, c.settled[op]) }

  ghost predicate Exact(c: Client) { AllOwn(c) && Clean(c.net.wires, c.pending) }

  ghost predicate Tidy(c: Client) { Sound(c) && Lone(c.net) && Exact(c) }

  lemma SendIsClean(wires: map<Sock, Wire>, s: Sock, op: OpId)
    requires Clean(wires, None) && s in wires
    ensures Clean(wires[s := wires[s].(upstream := wires[s].upstream + [op])], Some(op))
  {
    assert Outstanding(wires[s]) == [];
    var t := wires[s].(upstream := wires[s].upstream + [op]);
    assert Outstanding(t) == [op];
    hide Outstanding;
  }

  lemma SameOutstanding(wires: map<Sock, Wire>, pending: Option<OpId>, s: Sock, w: Wire)
    requires Clean(wires, pending) && s in wires && Outstanding(w) == Outstanding(wires[s])
    ensures Clean(wires[s := w], pending)
  {
    hide Outstanding;
  }

  lemma NewWireIsClean(wires: map<Sock, Wire>, pending: Option<OpId>, s: Sock)
    requires Clean(wires, pending)
    ensures Clean(wires[s := Wire([], [])], pending) && Clean(wires - {s}, pending)
  {
    assert Outstanding(Wire([], [])) == [];
    hide Outstanding;
  }

  lemma AnsweredIsClean(wires: map<Sock, Wire>, p: OpId, s: Sock, w: Wire)
    requires Clean(wires, Some(p)) && s in wires && Outstanding(wires[s]) == [p] && Outstanding(w) == []
    ensures Clean(wires[s := w], None)
  {
    hide Outstanding;
  }

  lemma NothingPendingIsClean(wires: map<Sock, Wire>, pending: Option<OpId>)
    requires Clean(wires, pending) && forall s :: s in wires ==> Outstanding(wires[s]) == []
    ensures Clean(wires, None)
  {
    hide Outstanding;
  }

  lemma StartIsExact(c: Client)
    requires Exact(c) && Enabled(c, Start)
    ensures Exact(Started(c))
  {
    var n := c.net;
    if CanSend(n) && n.socket.value in n.wires { SendIsClean(n.wires, n.socket.value, c.next); }
    hide Outstanding;
  }

  lemma RouteIsExact(c: Client, s: Sock)
    requires Sound(c) && Exact(c) && Enabled(c, Receive(s))
    ensures Exact(Route(c, s))
  {
    var w := c.net.wires[s];
    PoppedIs(w, c.ops, c.next);
    var rest := w.(downstream := w.downstream[1..]);
    hide Ordered;
    assert Outstanding(w) == [c.pending.value];
    assert Outstanding(w)[0] == w.downstream[0].tag && Outstanding(w)[1..] == Outstanding(rest);
    assert w.downstream[0].tag == c.pending.value && Outstanding(rest) == [];
    assert Settles(c, w.downstream[0]);
    hide Outstanding;
    AnsweredIsClean(c.net.wires, c.pending.value, s, rest);
  }

  lemma LastWire(n: Net, s: Sock)
    requires Lone(n) && s in n.wires
    ensures n.wires - {s} == map[]
  {
    Smaller(n.wires, s);
  }

  lemma LostIsExact(c: Client, s: Sock)
    requires Lone(c.net) && Exact(c) && s in c.net.wires
    ensures Exact(Lost(c, s))
  {
    hide Lone, Outstanding;
    LastWire(c.net, s);
  }

  lemma StepIsExact(c: Client, e: Event)
    requires Tidy(c) && Enabled(c, e) && !e.Timeout? && (Dials(c.net, e) ==> AtRest(c.net))
    ensures Exact(Step(c, e))
  {
    hide Outstanding;
    match e
    case Start => StartIsExact(c);
    case Respond(s, answer) =>
      RespondedIs(c.net.wires[s], answer, c.ops, c.next);
      SameOutstanding(c.net.wires, c.pending, s, Responded(c.net.wires[s], answer));
    case Receive(s) => RouteIsExact(c, s);
    case Established(s) => NewWireIsClean(c.net.wires, c.pending, s);
    case CloseSeen(s) => LostIsExact(c, s);
    case _ =>
  }

  lemma StepIsTidy(c: Client, e: Event)
    requires Tidy(c) && Enabled(c, e) && !e.Timeout? && (Dials(c.net, e) ==> AtRest(c.net))
    ensures Tidy(Step(c, e))
  {
    hide Sound, Lone, Exact, Step, Enabled;
    StepIsSound(c, e);
    StepKeepsNet(c, e);
    StepIsExact(c, e);
  }

  lemma {:induction false} RunIsTidy(c: Client, events: seq<Event>)
    requires Tidy(c) && Run(c, events) && Careful(c, events) && Timeout !in events
    ensures Tidy(Reached(c, events))
    decreases |events|
  {
    hide Tidy, Step, Enabled, AtRest, Dials;
    if events != [] {
      assert events[0] in events;
      StepIsTidy(c, events[0]);
      RunIsTidy(Step(c, events[0]), events[1..]);
    }
  }

  lemma NewIsTidy(reconnect: bool)
    ensures Tidy(New(reconnect))
  {
  }

  /**
   Without timeouts, and with each `connect()` made at rest, every answered operation was settled by the gateway's
   answer to exactly that operation.
   */
  lemma WithoutTimeoutsAnswersMatch(reconnect: bool, events: seq<Event>, op: OpId)
    requires Run(New(reconnect), events) && Careful(New(reconnect), events) && Timeout !in events
    requires op in Reached(New(reconnect), events).settled
    ensures OwnAnswer(op, Reached(New(reconnect), events).settled[op])
  {
    NewIsTidy(reconnect);
    RunIsTidy(New(reconnect), events);
    hide Sound, Lone, Reached, Run;
  }

  // ---- The client in place -------------------------------------------------

  /** The queue, the pending operation, the socket field and the state; the other end and the timers are history. */
  class GatewayClient {
    const reconnect: bool
    var ops: seq<Kind>
    var next: nat
    var pending: Option<OpId>
    var settled: map<OpId, Outcome>
    var phase: Phase
    var socket: Option<Sock>
    var userClosed: bool
    ghost var attempts: map<Sock, bool>
    ghost var timers: nat
    ghost var wires: map<Sock, Wire>
    ghost var used: set<Sock>

    ghost function NetView(): Net
      reads this
    {
      Net(phase, socket, userClosed, reconnect, attempts, timers, wires, used)
    }

    ghost function View(): Client
      reads this
    {
      Client(ops, next, pending, settled, NetView())
    }

    constructor (reconnect: bool)
      ensures View() == New(reconnect)
    {
      this.reconnect := reconnect;
      ops, next, pending, settled := [], 0, None, map[];
      phase, socket, userClosed := Idle, None, false;
      attempts, timers, wires, used := map[], 0, map[], {};
    }

    /** A new socket, which becomes the current one at once. */
    method Establish(s: Sock, ghost retry: bool)
      modifies `phase, `socket, `attempts, `used
      ensures NetView() == Dial(old(NetView()), s, retry)
      ensures phase == Connecting && socket == Some(s) && attempts == old(attempts)[s := retry]
    {
      phase := Connecting;
      socket := Some(s);
      attempts, used := attempts[s := retry], used + {s};
    }

    method StartConnect(s: Sock)
      requires Enabled(View(), Connect(s))
      modifies `phase, `socket, `userClosed, `attempts, `used
      ensures View() == Step(old(View()), Connect(s))
      ensures if old(phase) == Connected || old(phase) == Connecting
              then phase == old(phase) && socket == old(socket) && userClosed == old(userClosed)
              else phase == Connecting && socket == Some(s) && !userClosed
    {
      if phase == Connected || phase == Connecting { return; }
      userClosed := false;
      Establish(s, false);
    }

    method OnRetryTimer(s: Sock)
      requires Enabled(View(), Fires(s))
      modifies `phase, `socket, `attempts, `used, `timers
      ensures View() == Step(old(View()), Fires(s))
      ensures if userClosed then phase == old(phase) && socket == old(socket) && attempts == old(attempts)
              else phase == Connecting && socket == Some(s) && s in attempts && attempts[s]
    {
      timers := timers - 1;
      if userClosed { return; }
      Establish(s, true);
    }

    /** The socket's listeners go on; they stay on for good. */
    method HandshakeDone(s: Sock)
      requires Enabled(View(), Established(s))
      modifies `phase, `attempts, `wires
      ensures View() == Step(old(View()), Established(s))
      ensures phase == Connected && s !in attempts && s in wires && wires[s] == Wire([], [])
    {
      phase := Connected;
      attempts, wires := attempts - {s}, wires[s := Wire([], [])];
    }

    method ControlOp(kind: Kind) returns (op: OpId)
      modifies `ops
      ensures op == |old(ops)| && View() == Step(old(View()), Issue(kind))
    {
      op := |ops|;
      ops := ops + [kind];
    }

    /** The next operation's turn: sent on the current socket, or rejected when there is no connection. */
    method RunNext() returns (sent: Option<OpId>)
      requires Enabled(View(), Start)
      modifies `next, `pending, `settled, `wires
      ensures View() == Step(old(View()), Start)
      ensures next == old(next) + 1
      ensures if old(socket).Some? && old(phase) == Connected
              then pending == Some(old(next)) && settled == old(settled)
              else pending == old(pending) && settled == old(settled)[old(next) := NotConnected]
      ensures sent == if CanSend(old(NetView())) then Some(old(next)) else None
    {
      if socket.None? || phase != Connected {
        settled := settled[next := NotConnected];
        next := next + 1;
        return None;
      }
      sent := Some(next);
      pending := Some(next);
      wires := Send(NetView(), next).wires;
      next := next + 1;
    }

    method SettlePending(outcome: Outcome)
      requires pending.Some?
      modifies `pending, `settled
      ensures View() == Settle(old(View()), outcome)
      ensures pending.None? && settled == old(settled)[old(pending).value := outcome]
    {
      settled := settled[pending.value := outcome];
      pending := None;
    }

    /** A reply of another kind than the one waited for is dropped; an error fails whatever is pending. */
    method RouteMessage(ghost s: Sock, reply: Reply)
      requires Enabled(View(), Receive(s)) && wires[s].downstream[0] == reply
      requires pending.Some? ==> pending.value < |ops|
      modifies `pending, `settled, `wires
      ensures View() == Step(old(View()), Receive(s))
      ensures var fits := old(pending).Some? && (reply.answer == Controls.Denied
                                         || reply.answer == Controls.Granted(ops[old(pending).value]));
        && (!fits ==> pending == old(pending) && settled == old(settled))
        && (fits ==> pending.None?
                     && settled == old(settled)[old(pending).value := if reply.answer.Denied? then Refused(reply.tag)
                                                                      else Replied(reply.tag)])
    {
      wires := wires[s := wires[s].(downstream := wires[s].downstream[1..])];
      if pending.None? { return; }
      match reply.answer
      case Granted(kind) => if ops[pending.value] == kind { SettlePending(Replied(reply.tag)); }
      case Denied => SettlePending(Refused(reply.tag));
    }

    method OnTimeout()
      requires pending.Some?
      modifies `pending, `settled
      ensures View() == Step(old(View()), Timeout)
      ensures pending.None? && settled == old(settled)[old(pending).value := TimedOut] && wires == old(wires)
    {
      SettlePending(TimedOut);
    }

    /** Any socket's close event: no branch asks whose it is. */
    method HandleClose(ghost s: Sock)
      requires Enabled(View(), CloseSeen(s))
      modifies `pending, `settled, `phase, `socket, `wires, `timers
      ensures View() == Step(old(View()), CloseSeen(s))
      ensures socket.None? && pending.None? && wires == old(wires) - {s}
      ensures settled == if old(pending).Some? then old(settled)[old(pending).value := Closed] else old(settled)
      ensures phase == if userClosed || !reconnect then Shut
                       else if old(phase) == Connected then Connecting else old(phase)
      ensures var again := !userClosed && reconnect && (old(phase) == Connected || old(phase) == Connecting);
        timers == old(timers) + if again then 1 else 0
    {
      var wasBusy := phase == Connected || phase == Connecting;
      socket := None;
      wires := wires - {s};
      if pending.Some? { SettlePending(Closed); }
      if userClosed || !reconnect {
        phase := Shut;
        return;
      }
      if wasBusy {
        phase := Connecting;
        timers := timers + 1;
      }
    }

    method Close()
      modifies `phase, `socket, `userClosed
      ensures View() == Step(old(View()), UserCloses)
      ensures userClosed && phase == Shut && socket.None? && pending == old(pending)
    {
      userClosed := true;
      phase := Shut;
      socket := None;
    }
  }
}

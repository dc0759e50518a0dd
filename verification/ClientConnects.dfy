/** When a client may connect: what an early `connect()` leads to, and what its caller can know. */
module ClientConnects {
  import opened Basics
  import opened Controls
  import opened Client

  // ---- Connecting before the old connection is gone ------------------------

  /** Whatever follows without timeouts, and with further connects at rest, every answer is its operation's own. */
  ghost predicate AlwaysOwn(c: Client) {
    forall events :: Run(c, events) && Careful(c, events) && Timeout !in events ==> AllOwn(Reached(c, events))
  }

  /** A client that does not retry: with stale requests it cannot send any more, and connects again only at rest. */
  ghost predicate Loose(c: Client) {
    && Sound(c) && !c.net.reconnect && Unretried(c.net) && AllOwn(c)
    && (Clean(c.net.wires, c.pending) || (c.pending.None? && c.net.socket.None?))
  }

  lemma LooseRoute(c: Client, s: Sock)
    requires Loose(c) && Enabled(c, Receive(s))
    ensures Loose(Route(c, s))
  {
    RouteIsSound(c, s);
    hide Sound, Outstanding;
    if Clean(c.net.wires, c.pending) { LooseExact(c); RouteIsExact(c, s); }
  }

  lemma LooseExact(c: Client)
    requires Loose(c)
    ensures Sound(c)
  {
  }

  lemma StepIsLoose(c: Client, e: Event)
    requires Loose(c) && Enabled(c, e) && !e.Timeout? && (Dials(c.net, e) ==> AtRest(c.net))
    ensures Loose(Step(c, e))
  {
    StepIsSound(c, e);
    LooseExact(c);
    hide Outstanding, Sound;
    match e
    case Start => if Clean(c.net.wires, c.pending) { StartIsExact(c); }
    case Respond(s, answer) =>
      if Clean(c.net.wires, c.pending) {
        SoundWire(c, s, answer);
        SameOutstanding(c.net.wires, c.pending, s, Responded(c.net.wires[s], answer));
      }
    case Receive(s) => LooseRoute(c, s);
    case Established(s) => if Clean(c.net.wires, c.pending) { NewWireIsClean(c.net.wires, c.pending, s); }
    case _ =>
  }

  lemma SoundWire(c: Client, s: Sock, answer: Answer)
    requires Sound(c) && Enabled(c, Respond(s, answer))
    ensures Outstanding(Responded(c.net.wires[s], answer)) == Outstanding(c.net.wires[s])
  {
    RespondedIs(c.net.wires[s], answer, c.ops, c.next);
  }

  lemma {:induction false} LooseIsOwn(c: Client, events: seq<Event>)
    requires Loose(c) && Run(c, events) && Careful(c, events) && Timeout !in events
    ensures AllOwn(Reached(c, events))
    decreases |events|
  {
    hide Sound, Clean, Step, Enabled, AtRest, Dials, AllOwn;
    if events != [] {
      assert events[0] in events;
      StepIsLoose(c, events[0]);
      LooseIsOwn(Step(c, events[0]), events[1..]);
    }
  }

  lemma LooseStaysOwn(c: Client)
    requires Loose(c)
    ensures AlwaysOwn(c)
  {
    hide Loose, AllOwn, Run, Careful, Reached;
    forall events | Run(c, events) && Careful(c, events) && Timeout !in events ensures AllOwn(Reached(c, events)) {
      LooseIsOwn(c, events);
    }
  }

  lemma TidyIsOwn(c: Client)
    requires Tidy(c)
    ensures AlwaysOwn(c)
  {
    forall events | Run(c, events) && Careful(c, events) && Timeout !in events ensures AllOwn(Reached(c, events)) {
      RunIsTidy(c, events);
      hide Sound, Lone, Reached, Run;
    }
  }

  /** After `connect()`. */
  function Begun(c: Client, s: Sock): Client { c.(net := Begin(c.net, s)) }

  lemma ConnectBegins(c: Client, s: Sock)
    requires s !in c.net.used
    ensures Step(c, Connect(s)) == Begun(c, s)
  {
  }

  lemma LooseConnect(c: Client, s: Sock)
    requires Tidy(c) && s !in c.net.used && !Busy(c.net.phase) && !c.net.reconnect
    ensures Loose(Begun(c, s))
  {
    StepIsSound(c, Connect(s));
    ConnectBegins(c, s);
    DialIsUnretried(c.net, s);
    hide Sound, Clean, OwnAnswer, Enabled, Lone, Unretried, Step;
  }

  lemma DialIsUnretried(n: Net, s: Sock)
    requires Lone(n) && !Busy(n.phase) && !n.reconnect
    ensures Unretried(Begin(n, s))
  {
  }

  lemma SafeConnect(c: Client, s: Sock)
    requires Tidy(c) && s !in c.net.used && !Busy(c.net.phase) && (AtRest(c.net) || !c.net.reconnect)
    ensures AlwaysOwn(Begun(c, s))
  {
    ConnectBegins(c, s);
    hide Tidy, Loose, Step, AlwaysOwn, AtRest, Begun;
    if AtRest(c.net) {
      StepIsTidy(c, Connect(s));
      TidyIsOwn(Begun(c, s));
    } else {
      LooseConnect(c, s);
      LooseStaysOwn(Begun(c, s));
    }
  }

  // ---- How it goes wrong ---------------------------------------------------

  /** A careful run without timeouts that ends with a wrong answer. */
  ghost predicate Breaks(c: Client, events: seq<Event>) {
    Run(c, events) && Careful(c, events) && Timeout !in events && !AllOwn(Reached(c, events))
  }

  lemma BreaksBefore(c: Client, e: Event, rest: seq<Event>)
    requires Enabled(c, e) && !e.Timeout? && !e.Connect? && Breaks(Step(c, e), rest)
    ensures Breaks(c, [e] + rest)
  {
    hide Step, Enabled, AllOwn;
    assert ([e] + rest)[1..] == rest;
  }

  /** Connected, with another connection's close event still to come. */
  predicate Crossed(c: Client, here: Sock, other: Sock) {
    && c.net.phase == Connected && c.net.socket == Some(here) && here != other
    && here in c.net.wires && other in c.net.wires && c.net.wires[here] == Wire([], [])
    && c.net.reconnect && !c.net.userClosed && c.next <= |c.ops|
    && c.net.wires.Keys <= c.net.used
  }

  /** The operation p was answered here with an error that has not arrived yet. */
  predicate Waiting(c: Client, here: Sock, other: Sock, p: OpId) {
    && c.pending == Some(p) && p + 1 == c.next < |c.ops|
    && c.net.phase == Connected && here != other && here in c.net.wires && other in c.net.wires
    && c.net.wires[here] == Wire([], [Reply(p, Denied)])
    && c.net.reconnect && !c.net.userClosed && c.net.wires.Keys <= c.net.used
  }

  lemma CrossedWaits(c: Client, here: Sock, other: Sock) returns (g: Client, h: Client, k: Client, l: Client)
    requires Crossed(c, here, other) && c.pending.None?
    ensures g == Step(c, Issue(Open)) && h == Step(g, Issue(Open)) && Enabled(h, Start) && k == Step(h, Start)
    ensures Enabled(k, Respond(here, Denied)) && l == Step(k, Respond(here, Denied))
    ensures Waiting(l, here, other, c.next)
  {
    g := Step(c, Issue(Open));
    h := Step(g, Issue(Open));
    k := Step(h, Start);
    assert k.net.wires[here] == Wire([c.next], []);
    l := Step(k, Respond(here, Denied));
    assert [c.next][1..] == [] && [] + [Reply(c.next, Denied)] == [Reply(c.next, Denied)];
    assert l.net.wires[here] == Wire([], [Reply(c.next, Denied)]);
  }

  /** The other connection's close event ends the operation and the wrong connection; the next one runs elsewhere. */
  lemma WaitingMoves(c: Client, here: Sock, other: Sock, p: OpId, n: Sock) returns (g: Client, h: Client, k: Client)
    requires Waiting(c, here, other, p) && n !in c.net.used
    ensures Enabled(c, CloseSeen(other)) && g == Step(c, CloseSeen(other))
    ensures Enabled(g, Fires(n)) && h == Step(g, Fires(n)) && Enabled(h, Established(n)) && k == Step(h, Established(n))
    ensures k.pending.None? && k.next == p + 1 < |k.ops| && k.ops == c.ops && CanSend(k.net)
    ensures here in k.net.wires && k.net.socket == Some(n) && n != here
    ensures k.net.wires[here] == Wire([], [Reply(p, Denied)])
  {
    g := Step(c, CloseSeen(other));
    h := Step(g, Fires(n));
    k := Step(h, Established(n));
  }

  lemma StrayAnswer(c: Client, here: Sock, p: OpId) returns (g: Client, h: Client)
    requires c.pending.None? && c.next == p + 1 < |c.ops| && CanSend(c.net) && c.net.socket != Some(here)
    requires here in c.net.wires && c.net.wires[here] == Wire([], [Reply(p, Denied)])
    ensures Enabled(c, Start) && g == Step(c, Start) && Enabled(g, Receive(here)) && h == Step(g, Receive(here))
    ensures p + 1 in h.settled && h.settled[p + 1] == Refused(p)
  {
    g := Step(c, Start);
    assert g.net.wires[here] == Wire([], [Reply(p, Denied)]);
    h := Step(g, Receive(here));
  }

  lemma WrongAnswerBreaks(c: Client, op: OpId, tag: OpId)
    requires op in c.settled && c.settled[op] == Refused(tag) && op != tag
    ensures Breaks(c, [])
  {
    assert !OwnAnswer(op, c.settled[op]);
    assert Run(c, []) && Reached(c, []) == c && Careful(c, []);
  }

  lemma CrossedBreaks(c: Client, here: Sock, other: Sock) returns (events: seq<Event>)
    requires Crossed(c, here, other) && c.pending.None?
    ensures Breaks(c, events)
  {
    hide *;
    var c1, c2, c3, c4 := CrossedWaits(c, here, other);
    var n := UnusedNumber(c4.net.used);
    var c5, c6, c7 := WaitingMoves(c4, here, other, c.next, n);
    NotThere(n, here);
    var c8, c9 := StrayAnswer(c7, here, c.next);
    WrongAnswerBreaks(c9, c.next + 1, c.next);
    BreaksBefore(c8, Receive(here), []);
    var e8 := [Receive(here)] + [];
    BreaksBefore(c7, Start, e8);
    var e7 := [Start] + e8;
    BreaksBefore(c6, Established(n), e7);
    var e6 := [Established(n)] + e7;
    BreaksBefore(c5, Fires(n), e6);
    var e5 := [Fires(n)] + e6;
    BreaksBefore(c4, CloseSeen(other), e5);
    var e4 := [CloseSeen(other)] + e5;
    BreaksBefore(c3, Respond(here, Denied), e4);
    var e3 := [Respond(here, Denied)] + e4;
    BreaksBefore(c2, Start, e3);
    var e2 := [Start] + e3;
    AlwaysEnabled(c1, Open);
    BreaksBefore(c1, Issue(Open), e2);
    var e1 := [Issue(Open)] + e2;
    AlwaysEnabled(c, Open);
    BreaksBefore(c, Issue(Open), e1);
    events := [Issue(Open)] + e1;
  }

  lemma NotThere(n: Sock, here: Sock)
    ensures n != here ==> Some(n) != Some(here)
  {
  }

  lemma AlwaysEnabled(c: Client, kind: Kind)
    ensures Enabled(c, Issue(kind))
  {
  }

  /** The close of one of two connections moves the client on to a third, and leaves the other one behind. */
  lemma CrossedAgain(c: Client, here: Sock, other: Sock, n: Sock) returns (g: Client, h: Client, k: Client)
    requires Crossed(c, here, other) && n !in c.net.used
    ensures Enabled(c, CloseSeen(other)) && g == Step(c, CloseSeen(other))
    ensures Enabled(g, Fires(n)) && h == Step(g, Fires(n)) && Enabled(h, Established(n)) && k == Step(h, Established(n))
    ensures Crossed(k, n, here) && k.pending.None?
  {
    g := Step(c, CloseSeen(other));
    h := Step(g, Fires(n));
    k := Step(h, Established(n));
  }

  lemma CrossedAlwaysBreaks(c: Client, here: Sock, other: Sock) returns (events: seq<Event>)
    requires Crossed(c, here, other)
    ensures Breaks(c, events)
  {
    if c.pending.None? {
      events := CrossedBreaks(c, here, other);
    } else {
      hide *;
      var n := UnusedNumber(c.net.used);
      var g, h, k := CrossedAgain(c, here, other, n);
      var rest := CrossedBreaks(k, n, here);
      BreaksBefore(h, Established(n), rest);
      var r1 := [Established(n)] + rest;
      BreaksBefore(g, Fires(n), r1);
      var r2 := [Fires(n)] + r1;
      BreaksBefore(c, CloseSeen(other), r2);
      events := [CloseSeen(other)] + r2;
    }
  }

  /** The client with a new connection beside whatever there was. */
  function Joined(c: Client, s: Sock): Client {
    c.(net := Net(Connected, Some(s), false, c.net.reconnect, c.net.attempts, c.net.timers,
                  c.net.wires[s := Wire([], [])], c.net.used + {s}))
  }

  lemma ConnectJoins(c: Client, s: Sock)
    requires Tidy(c) && s !in c.net.used && !Busy(c.net.phase)
    ensures var t := Step(c, Connect(s)); Enabled(t, Established(s)) && Step(t, Established(s)) == Joined(c, s)
    ensures c.next <= |c.ops| && c.net.wires.Keys + c.net.attempts.Keys <= c.net.used
  {
    hide WiresOk, Clean, AllOwn;
    assert c.net.attempts[s := false] - {s} == c.net.attempts;
  }

  lemma BesideFormer(c: Client, s: Sock, was: Sock)
    requires c.next <= |c.ops| && c.net.wires.Keys + c.net.attempts.Keys <= c.net.used
    requires s !in c.net.used && c.net.reconnect && was in c.net.wires
    ensures Crossed(Joined(c, s), s, was)
  {
  }

  /** A pending retry makes another connection beside the new one. */
  lemma BesideRetry(c: Client, s: Sock, n: Sock) returns (h: Client, k: Client)
    requires c.next <= |c.ops| && c.net.wires.Keys + c.net.attempts.Keys <= c.net.used
    requires s !in c.net.used && c.net.reconnect && c.net.timers > 0 && n !in c.net.used + {s}
    ensures var g := Joined(c, s); Enabled(g, Fires(n)) && h == Step(g, Fires(n))
    ensures Enabled(h, Established(n)) && k == Step(h, Established(n)) && Crossed(k, n, s)
  {
    h := Step(Joined(c, s), Fires(n));
    k := Step(h, Established(n));
  }

  /** An attempt under way succeeds beside the new one. */
  lemma BesideAttempt(c: Client, s: Sock, a: Sock) returns (h: Client)
    requires c.next <= |c.ops| && c.net.wires.Keys + c.net.attempts.Keys <= c.net.used
    requires s !in c.net.used && c.net.reconnect && a in c.net.attempts
    ensures Enabled(Joined(c, s), Established(a)) && h == Step(Joined(c, s), Established(a)) && Crossed(h, s, a)
  {
    h := Step(Joined(c, s), Established(a));
  }

  lemma HastyConnectBreaks(c: Client, s: Sock) returns (events: seq<Event>)
    requires Tidy(c) && s !in c.net.used && !Busy(c.net.phase) && c.net.reconnect && !AtRest(c.net)
    ensures Breaks(Step(c, Connect(s)), events)
  {
    var t := Step(c, Connect(s));
    hide Tidy, Step, Enabled, Breaks, Crossed, Busy, Joined;
    ConnectJoins(c, s);
    var rest;
    if c.net.wires != map[] {
      var was :| was in c.net.wires;
      BesideFormer(c, s, was);
      rest := CrossedAlwaysBreaks(Joined(c, s), s, was);
    } else if c.net.timers > 0 {
      var n := UnusedNumber(c.net.used + {s});
      var h, k := BesideRetry(c, s, n);
      var r0 := CrossedAlwaysBreaks(k, n, s);
      BreaksBefore(h, Established(n), r0);
      var r1 := [Established(n)] + r0;
      BreaksBefore(Joined(c, s), Fires(n), r1);
      rest := [Fires(n)] + r1;
    } else {
      var a :| a in c.net.attempts;
      var h := BesideAttempt(c, s, a);
      var r0 := CrossedAlwaysBreaks(h, s, a);
      BreaksBefore(Joined(c, s), Established(a), r0);
      rest := [Established(a)] + r0;
    }
    BreaksBefore(t, Established(s), rest);
    events := [Established(s)] + rest;
  }

  /**
   When a `connect()` that dials is safe: exactly at rest, or if the client does not retry. Otherwise a close event of
   another connection moves the client on while its own connection is open, whose answer then settles a later operation.
   */
  lemma ConnectKeepsAnswersExactlyAtRest(c: Client, s: Sock)
    requires Tidy(c) && s !in c.net.used && !Busy(c.net.phase)
    ensures AlwaysOwn(Step(c, Connect(s))) <==> AtRest(c.net) || !c.net.reconnect
  {
    if AtRest(c.net) || !c.net.reconnect {
      ConnectBegins(c, s);
      SafeConnect(c, s);
    } else {
      var events := HastyConnectBreaks(c, s);
      hide Step, Run, Reached, AllOwn;
    }
  }

  lemma FirstConnection() returns (g: Client, h: Client)
    ensures Enabled(New(true), Connect(1)) && g == Step(New(true), Connect(1)) && Enabled(g, Established(1))
    ensures h == Step(g, Established(1)) && h == Joined(New(true), 1) && Tidy(h)
  {
    NewIsTidy(true);
    g := Step(New(true), Connect(1));
    StepIsTidy(New(true), Connect(1));
    h := Step(g, Established(1));
    StepIsTidy(g, Established(1));
    hide Tidy;
    ConnectJoinsNew();
  }

  lemma ConnectJoinsNew()
    ensures var g := Step(New(true), Connect(1));
      Enabled(g, Established(1)) && Step(g, Established(1)) == Joined(New(true), 1)
  {
    NewIsTidy(true);
    ConnectJoins(New(true), 1);
  }

  /** Closed, before the close event of the connection. */
  lemma JustClosed(h: Client) returns (k: Client)
    requires h == Joined(New(true), 1)
    ensures Enabled(h, UserCloses) && k == Step(h, UserCloses) && Enabled(k, Connect(2))
    ensures !AtRest(k.net) && 2 !in k.net.used && !Busy(k.net.phase) && k.net.reconnect
  {
    k := Step(h, UserCloses);
    assert 1 in k.net.wires;
  }

  lemma RunsBefore(c: Client, e: Event, rest: seq<Event>)
    requires Enabled(c, e) && Run(Step(c, e), rest)
    ensures Run(c, [e] + rest) && Reached(c, [e] + rest) == Reached(Step(c, e), rest)
  {
    hide Step, Enabled;
    assert ([e] + rest)[1..] == rest;
  }

  /** So without any timeout a late close event makes the answer to one operation settle another. */
  lemma LateCloseSettlesTheNextOperation() returns (events: seq<Event>)
    ensures Run(New(true), events) && Timeout !in events && !AllOwn(Reached(New(true), events))
  {
    hide Step, Enabled, AllOwn, Tidy, Joined, AtRest, Busy, Careful, New;
    var g, h := FirstConnection();
    var k := JustClosed(h);
    StepIsTidy(h, UserCloses);
    var rest := HastyConnectBreaks(k, 2);
    RunsBefore(k, Connect(2), rest);
    RunsBefore(h, UserCloses, [Connect(2)] + rest);
    RunsBefore(g, Established(1), [UserCloses] + ([Connect(2)] + rest));
    RunsBefore(New(true), Connect(1), [Established(1)] + ([UserCloses] + ([Connect(2)] + rest)));
    events := [Connect(1)] + ([Established(1)] + ([UserCloses] + ([Connect(2)] + rest)));
  }

  // ---- Timeouts ------------------------------------------------------------

  lemma TimedOutTwice() returns (c1: Client, c2: Client, c3: Client, c4: Client, c5: Client, c6: Client)
    ensures Enabled(New(true), Connect(1)) && c1 == Step(New(true), Connect(1))
    ensures Enabled(c1, Established(1)) && c2 == Step(c1, Established(1))
    ensures c3 == Step(c2, Issue(Open)) && c4 == Step(c3, Issue(Open)) && Enabled(c4, Start) && c5 == Step(c4, Start)
    ensures Enabled(c5, Timeout) && c6 == Step(c5, Timeout)
    ensures c6.ops == [Open, Open] && c6.next == 1 && c6.pending.None? && CanSend(c6.net) && c6.net.socket == Some(1)
    ensures 1 in c6.net.wires && c6.net.wires[1] == Wire([0], [])
  {
    c1 := Step(New(true), Connect(1));
    c2 := Step(c1, Established(1));
    c3 := Step(c2, Issue(Open));
    c4 := Step(c3, Issue(Open));
    c5 := Step(c4, Start);
    assert [] + [0] == [0];
    assert c5.net.wires[1] == Wire([0], []);
    c6 := Step(c5, Timeout);
  }

  lemma LateAnswer(c: Client) returns (g: Client, h: Client, k: Client)
    requires c.ops == [Open, Open] && c.next == 1 && c.pending.None? && CanSend(c.net) && c.net.socket == Some(1)
    requires 1 in c.net.wires && c.net.wires[1] == Wire([0], [])
    ensures Enabled(c, Start) && g == Step(c, Start) && Enabled(g, Respond(1, Granted(Open)))
    ensures h == Step(g, Respond(1, Granted(Open))) && Enabled(h, Receive(1)) && k == Step(h, Receive(1))
    ensures 1 in k.settled && k.settled[1] == Replied(0)
  {
    g := Step(c, Start);
    assert g.net.wires[1] == Wire([0, 1], []);
    h := Step(g, Respond(1, Granted(Open)));
    assert h.net.wires[1] == Wire([1], [Reply(0, Granted(Open))]);
    k := Step(h, Receive(1));
  }

  /** A late answer settles the wrong operation: the first times out, the second gets the first one's channel. */
  lemma LateAnswerSettlesTheNextOperation() returns (events: seq<Event>)
    ensures Run(New(true), events)
    ensures 1 in Reached(New(true), events).settled && Reached(New(true), events).settled[1] == Replied(0)
  {
    var c1, c2, c3, c4, c5, c6 := TimedOutTwice();
    var c7, c8, c9 := LateAnswer(c6);
    assert Run(c9, []) && Reached(c9, []) == c9;
    AlwaysEnabled(c2, Open);
    AlwaysEnabled(c3, Open);
    hide *;
    RunsBefore(c8, Receive(1), []);
    var e8 := [Receive(1)] + [];
    RunsBefore(c7, Respond(1, Granted(Open)), e8);
    var e7 := [Respond(1, Granted(Open))] + e8;
    RunsBefore(c6, Start, e7);
    var e6 := [Start] + e7;
    RunsBefore(c5, Timeout, e6);
    var e5 := [Timeout] + e6;
    RunsBefore(c4, Start, e5);
    var e4 := [Start] + e5;
    RunsBefore(c3, Issue(Open), e4);
    var e3 := [Issue(Open)] + e4;
    RunsBefore(c2, Issue(Open), e3);
    var e2 := [Issue(Open)] + e3;
    RunsBefore(c1, Established(1), e2);
    var e1 := [Established(1)] + e2;
    RunsBefore(New(true), Connect(1), e1);
    events := [Connect(1)] + e1;
  }

  // ---- What the caller can know --------------------------------------------

  /**
   What the caller has seen: its own attempts and those of retries that are under way, the connections whose close event
   has not come, the state, whether a retry is pending, and whether one was when it closed the client.
   */
  datatype Seen = Seen(calling: set<Sock>, trying: set<Sock>, open: set<Sock>, phase: Phase, userClosed: bool,
                       waiting: bool, haunted: bool)

  const NOTHING_SEEN := Seen({}, {}, {}, Idle, false, false, false)

  function Look(v: Seen, e: Event, reconnect: bool): Seen {
    match e
    case Connect(s) =>
      if Busy(v.phase) then v else v.(calling := v.calling + {s}, phase := Connecting, userClosed := false)
    case Fires(s) => v.(trying := v.trying + {s}, phase := Connecting, waiting := false)
    case Established(s) =>
      v.(calling := v.calling - {s}, trying := v.trying - {s}, open := v.open + {s}, phase := Connected)
    case AttemptFails(s) =>
      v.(calling := v.calling - {s}, trying := v.trying - {s}, waiting := v.waiting || (s in v.trying && !v.userClosed),
         haunted := v.haunted || (s in v.trying && v.userClosed))
    case CloseSeen(s) =>
      if v.userClosed || !reconnect then v.(open := v.open - {s}, phase := Shut)
      else if Busy(v.phase) then v.(open := v.open - {s}, phase := Connecting, waiting := true)
      else v.(open := v.open - {s})
    case UserCloses => v.(phase := Shut, userClosed := true, waiting := false, haunted := v.haunted || v.waiting)
    case _ => v
  }

  /** No attempt is under way, every connection's close event has come, and no retry is or may be pending. */
  predicate MayConnect(v: Seen) { v.calling == {} && v.trying == {} && v.open == {} && !v.waiting && !v.haunted }

  /** Everything but a retry that fires after `close()`, which does nothing. */
  function Visible(c: Client, events: seq<Event>): seq<Event>
    requires Run(c, events)
    decreases |events|
  {
    if events == [] then []
    else (if events[0].Fires? && c.net.userClosed then [] else [events[0]]) + Visible(Step(c, events[0]), events[1..])
  }

  predicate Cautious(v: Seen, seen: seq<Event>, reconnect: bool)
    decreases |seen|
  {
    seen == [] || ((seen[0].Connect? && !Busy(v.phase) ==> MayConnect(v))
                   && Cautious(Look(v, seen[0], reconnect), seen[1..], reconnect))
  }

  /** The attempts that retries made, or that `connect()` did. */
  function Made(attempts: map<Sock, bool>, retry: bool): set<Sock> { set s | s in attempts && attempts[s] == retry }

  lemma MadeMore(attempts: map<Sock, bool>, s: Sock, retry: bool)
    requires s !in attempts
    ensures Made(attempts[s := retry], retry) == Made(attempts, retry) + {s}
    ensures Made(attempts[s := retry], !retry) == Made(attempts, !retry)
  {
  }

  lemma MadeLess(attempts: map<Sock, bool>, s: Sock)
    ensures forall retry :: Made(attempts - {s}, retry) == Made(attempts, retry) - {s}
    ensures s in attempts ==> (s in Made(attempts, true) <==> attempts[s])
  {
  }

  /** What the caller has seen fits the connections. */
  ghost predicate Fits(v: Seen, n: Net) {
    && v.calling == Made(n.attempts, false) && v.trying == Made(n.attempts, true)
    && v.open == n.wires.Keys && v.phase == n.phase && v.userClosed == n.userClosed
    && (v.waiting <==> !n.userClosed && n.timers > 0)
    && (n.userClosed && n.timers > 0 ==> v.haunted)
  }

  lemma DialFits(v: Seen, n: Net, s: Sock)
    requires Lone(n) && Fits(v, n) && s !in n.used && (AtRest(n) || Busy(n.phase))
    ensures Fits(Look(v, Connect(s), n.reconnect), Begin(n, s))
  {
    assert s !in n.attempts;
    hide Lone, Made;
    MadeMore(n.attempts, s, false);
  }

  lemma RetryFits(v: Seen, n: Net, s: Sock)
    requires Lone(n) && Fits(v, n) && s !in n.used && n.timers > 0
    ensures Fits(if n.userClosed then v else Look(v, Fires(s), n.reconnect), Retry(n, s))
  {
    assert s !in n.attempts;
    LoneTimer(n);
    hide Lone, Made;
    MadeMore(n.attempts, s, true);
  }

  lemma LoneTimer(n: Net)
    requires Lone(n)
    ensures n.timers <= 1 && (n.timers == 1 ==> n.wires == map[] && n.attempts == map[])
    ensures forall s :: s in n.attempts ==> n.timers == 0 && n.wires == map[] && n.attempts - {s} == map[]
  {
    forall s | s in n.attempts ensures n.timers == 0 && n.wires == map[] && n.attempts - {s} == map[] {
      Smaller(n.attempts, s);
    }
  }

  lemma AttemptFits(v: Seen, n: Net, s: Sock)
    requires Lone(n) && Fits(v, n) && s in n.attempts
    ensures Fits(Look(v, Established(s), n.reconnect), Listen(n, s))
    ensures Fits(Look(v, AttemptFails(s), n.reconnect), GiveUp(n, s))
  {
    hide Lone, Made;
    MadeLess(n.attempts, s);
  }

  lemma CloseFits(v: Seen, n: Net, s: Sock)
    requires Fits(v, n) && s in n.wires
    ensures Fits(Look(v, CloseSeen(s), n.reconnect), Lose(n, s)) && Fits(Look(v, UserCloses, n.reconnect), ShutNet(n))
  {
    hide Made;
    assert (n.wires - {s}).Keys == n.wires.Keys - {s};
  }

  lemma ShutFits(v: Seen, n: Net)
    requires Fits(v, n)
    ensures Fits(Look(v, UserCloses, n.reconnect), ShutNet(n))
  {
    hide Made;
  }

  lemma WireFits(v: Seen, n: Net, s: Sock, w: Wire)
    requires Fits(v, n) && s in n.wires
    ensures Fits(v, n.(wires := n.wires[s := w]))
  {
    hide Made;
    assert n.wires[s := w].Keys == n.wires.Keys;
  }

  lemma LookFits(v: Seen, c: Client, e: Event)
    requires Lone(c.net) && Fits(v, c.net) && Enabled(c, e) && (Dials(c.net, e) ==> AtRest(c.net))
    ensures Fits(if e.Fires? && c.net.userClosed then v else Look(v, e, c.net.reconnect), Step(c, e).net)
    ensures Step(c, e).net.reconnect == c.net.reconnect
  {
    hide Fits, Lone;
    var n := c.net;
    match e {
      case Start =>
        if CanSend(n) && n.socket.value in n.wires {
            var w := n.wires[n.socket.value];
          WireFits(v, n, n.socket.value, w.(upstream := w.upstream + [c.next]));
        }
      case Respond(s, answer) =>
        WireFits(v, n, s, Responded(n.wires[s], answer));
      case Receive(s) =>
        WireFits(v, n, s, n.wires[s].(downstream := n.wires[s].downstream[1..]));
      case Connect(s) =>
        DialFits(v, n, s);
      case Fires(s) =>
        RetryFits(v, n, s);
      case Established(s) =>
        AttemptFits(v, n, s);
      case AttemptFails(s) =>
        AttemptFits(v, n, s);
      case CloseSeen(s) =>
        CloseFits(v, n, s);
      case UserCloses =>
        ShutFits(v, n);
      case _ =>
    }
  }

  lemma MayConnectAtRest(v: Seen, n: Net)
    requires Fits(v, n) && MayConnect(v)
    ensures AtRest(n)
  {
    assert forall s :: s in n.attempts ==> s in Made(n.attempts, n.attempts[s]);
    assert n.wires.Keys == {} && n.attempts.Keys == {};
  }

  lemma VisibleMoves(c: Client, events: seq<Event>)
    requires Run(c, events) && events != []
    ensures var rest := Visible(Step(c, events[0]), events[1..]);
      Visible(c, events) == if events[0].Fires? && c.net.userClosed then rest else [events[0]] + rest
  {
    hide Step, Enabled;
  }

  lemma {:induction false} CautiousIsCareful(v: Seen, c: Client, events: seq<Event>)
    requires Lone(c.net) && Fits(v, c.net) && Run(c, events) && Cautious(v, Visible(c, events), c.net.reconnect)
    ensures Careful(c, events)
    decreases |events|
  {
    hide Step, Enabled, Lone, Fits, AtRest, MayConnect;
    if events != [] {
      var e := events[0];
      VisibleMoves(c, events);
      if Dials(c.net, e) { SeenPhase(v, c.net); MayConnectAtRest(v, c.net); }
      StepKeepsNet(c, e);
      LookFits(v, c, e);
      var seen := if e.Fires? && c.net.userClosed then v else Look(v, e, c.net.reconnect);
      CautiousIsCareful(seen, Step(c, e), events[1..]);
    }
  }

  lemma SeenPhase(v: Seen, n: Net)
    requires Fits(v, n)
    ensures v.phase == n.phase
  {
  }

  /** One more retry is pending. */
  function MoreNet(n: Net): Net { n.(timers := n.timers + 1) }

  function OneMore(c: Client): Client { c.(net := MoreNet(c.net)) }

  predicate AboutOperations(e: Event) {
    e.Issue? || e.Start? || e.Respond? || e.Receive? || e.OtherMessage? || e.Timeout?
  }

  lemma OneMoreSend(c: Client)
    requires Enabled(c, Start)
    ensures Started(OneMore(c)) == OneMore(Started(c))
  {
  }

  lemma OneMoreRoute(c: Client, s: Sock)
    requires Enabled(c, Receive(s))
    ensures Route(OneMore(c), s) == OneMore(Route(c, s))
  {
    hide Fits, OutcomeOf;
  }

  lemma OneMoreOperation(c: Client, e: Event)
    requires Enabled(c, e) && AboutOperations(e)
    ensures Enabled(OneMore(c), e) && Step(OneMore(c), e) == OneMore(Step(c, e))
  {
    if e.Start? { OneMoreSend(c); }
    if e.Receive? { OneMoreRoute(c, e.sock); }
    hide Route, Started, Responded;
  }

  lemma OneMoreNet(n: Net, s: Sock)
    ensures Begin(MoreNet(n), s) == MoreNet(Begin(n, s)) && ShutNet(MoreNet(n)) == MoreNet(ShutNet(n))
    ensures Listen(MoreNet(n), s) == MoreNet(Listen(n, s)) && Lose(MoreNet(n), s) == MoreNet(Lose(n, s))
    ensures n.timers > 0 ==> Retry(MoreNet(n), s) == MoreNet(Retry(n, s))
    ensures s in n.attempts ==> GiveUp(MoreNet(n), s) == MoreNet(GiveUp(n, s))
    ensures var m := MoreNet(n); m.used == n.used && m.attempts == n.attempts && m.wires == n.wires && m.timers > 0
  {
  }

  lemma OneMoreConnection(c: Client, e: Event)
    requires Enabled(c, e) && !AboutOperations(e)
    ensures Enabled(OneMore(c), e) && Step(OneMore(c), e) == OneMore(Step(c, e))
  {
    OneMoreNet(c.net, if e.UserCloses? then 0 else e.sock);
    hide Route, Started, Responded, Begin, Listen, Lose, ShutNet, Retry, GiveUp, MoreNet, Fits;
  }

  lemma OneMoreStep(c: Client, e: Event)
    requires Enabled(c, e)
    ensures Enabled(OneMore(c), e) && Step(OneMore(c), e) == OneMore(Step(c, e))
  {
    hide Enabled, Step;
    if AboutOperations(e) { OneMoreOperation(c, e); } else { OneMoreConnection(c, e); }
  }

  /** One more retry that never fires changes nothing that can be seen. */
  lemma {:induction false} OneMoreRetry(c: Client, events: seq<Event>)
    requires Run(c, events)
    ensures Run(OneMore(c), events) && Visible(OneMore(c), events) == Visible(c, events)
    decreases |events|
  {
    hide Step, Enabled;
    if events != [] {
      OneMoreStep(c, events[0]);
      OneMoreRetry(Step(c, events[0]), events[1..]);
    }
  }

  /** c, or c with the retry that was pending at `close()` still to come. */
  predicate Alike(v: Seen, c: Client, t: Client) {
    && (t == c || (v.haunted && c.net.userClosed && c.net.timers == 0 && t == OneMore(c)))
    && (v.haunted ==> c.net.userClosed && t.net.timers == 1 && c.net.wires == map[] && c.net.attempts == map[])
  }

  lemma AlikeMoves(v: Seen, c: Client, t: Client, e: Event)
    requires Lone(c.net) && Fits(v, c.net) && Alike(v, c, t) && Enabled(c, e)
    requires Dials(c.net, e) ==> MayConnect(v)
    ensures e.Fires? && c.net.userClosed ==> Alike(v, Step(c, e), t)
    ensures !(e.Fires? && c.net.userClosed) ==>
              Enabled(t, e) && t.net.userClosed == c.net.userClosed
              && Alike(Look(v, e, c.net.reconnect), Step(c, e), Step(t, e))
  {
    hide Fits, MayConnect, Step, Enabled, Look, Alike;
    if v.haunted { HauntedMoves(v, c, t, e); } else { NotHauntedMoves(v, c, t, e); }
  }

  lemma HauntedMoves(v: Seen, c: Client, t: Client, e: Event)
    requires v.haunted && Alike(v, c, t) && Enabled(c, e) && Fits(v, c.net)
    requires Dials(c.net, e) ==> MayConnect(v)
    ensures e.Fires? && c.net.userClosed ==> Alike(v, Step(c, e), t)
    ensures !(e.Fires? && c.net.userClosed) ==>
              Enabled(t, e) && t.net.userClosed == c.net.userClosed
              && Alike(Look(v, e, c.net.reconnect), Step(c, e), Step(t, e))
  {
    MayConnectIsNot(v);
    OneMoreStep(c, e);
    hide Lone, Made, MayConnect, Route, Started, Responded, GiveUp, Lose, Listen;
    if !e.Fires? && !e.Connect? { AloneStays(c, e); AloneStays(t, e); }
  }

  lemma NotHauntedMoves(v: Seen, c: Client, t: Client, e: Event)
    requires Lone(c.net) && !v.haunted && Alike(v, c, t) && Enabled(c, e) && Fits(v, c.net)
    ensures !(e.Fires? && c.net.userClosed) && Enabled(t, e) && t.net.userClosed == c.net.userClosed
    ensures Alike(Look(v, e, c.net.reconnect), Step(c, e), Step(t, e))
  {
    ClosedUnhaunted(v, c, e);
    if Look(v, e, c.net.reconnect).haunted { Haunting(v, c, e); }
    hide Lone, Fits, Step, Look, Enabled, OneMore;
  }

  lemma ClosedUnhaunted(v: Seen, c: Client, e: Event)
    requires Lone(c.net) && !v.haunted && Enabled(c, e) && Fits(v, c.net)
    ensures !(e.Fires? && c.net.userClosed)
  {
    hide Lone, Made;
  }

  /** A retry is left behind, and nothing else. */
  lemma Haunting(v: Seen, c: Client, e: Event)
    requires Lone(c.net) && !v.haunted && Enabled(c, e) && Fits(v, c.net) && Look(v, e, c.net.reconnect).haunted
    ensures var n := Step(c, e).net; n.userClosed && n.timers == 1 && n.wires == map[] && n.attempts == map[]
  {
    LoneTimer(c.net);
    if e.AttemptFails? {
      hide Route, Started, Responded;
      Smaller(c.net.attempts, e.sock);
    } else {
      hide Lone, Made, Route, Started, Responded;
    }
  }

  lemma MayConnectIsNot(v: Seen)
    ensures MayConnect(v) ==> !v.haunted
  {
  }

  /** Closed and without connections or attempts, a client's connections do not change. */
  lemma AloneStays(c: Client, e: Event)
    requires Enabled(c, e) && !e.Fires? && !e.Connect?
    requires c.net.userClosed && c.net.wires == map[] && c.net.attempts == map[]
    ensures Step(c, e).net == c.net || (e.UserCloses? && Step(c, e).net == ShutNet(c.net))
  {
  }

  lemma NotAtRest(v: Seen, c: Client, t: Client)
    requires Fits(v, c.net) && Alike(v, c, t) && !MayConnect(v)
    ensures !AtRest(t.net)
  {
    assert v.haunted ==> t.net.timers > 0;
    assert v.open != {} ==> t.net.wires != map[];
    assert v.calling + v.trying != {} ==> t.net.attempts != map[];
  }

  lemma AlikeDials(v: Seen, c: Client, t: Client, e: Event)
    requires Alike(v, c, t)
    ensures Dials(t.net, e) == Dials(c.net, e)
  {
  }

  /** A caller that was not cautious cannot exclude a run that was not careful. */
  lemma {:induction false} Unlucky(v: Seen, c: Client, t: Client, events: seq<Event>) returns (other: seq<Event>)
    requires Lone(c.net) && Fits(v, c.net) && Alike(v, c, t)
    requires Run(c, events) && !Cautious(v, Visible(c, events), c.net.reconnect)
    ensures Run(t, other) && Visible(t, other) == Visible(c, events) && !Careful(t, other)
    decreases |events|
  {
    var e, rest := events[0], events[1..];
    hide Step, Enabled, Lone, Fits, AtRest, MayConnect, OneMore;
    VisibleMoves(c, events);
    SeenPhase(v, c.net);
    AlikeDials(v, c, t, e);
    if Dials(c.net, e) && !MayConnect(v) {
      NotAtRest(v, c, t);
      OneMoreRetry(c, events);
      other := events;
    } else {
      if Dials(c.net, e) { MayConnectAtRest(v, c.net); }
      StepKeepsNet(c, e);
      LookFits(v, c, e);
      AlikeMoves(v, c, t, e);
      hide Alike;
      if e.Fires? && c.net.userClosed {
        other := Unlucky(v, Step(c, e), t, rest);
      } else {
        var later := Unlucky(Look(v, e, c.net.reconnect), Step(c, e), Step(t, e), rest);
        other := [e] + later;
        assert other[1..] == later;
        VisibleMoves(t, other);
      }
    }
  }

  /** Every run the caller cannot tell from this one connects at rest only. */
  ghost predicate SurelyCareful(reconnect: bool, events: seq<Event>)
    requires Run(New(reconnect), events)
  {
    forall other :: Run(New(reconnect), other) && Visible(New(reconnect), other) == Visible(New(reconnect), events) ==>
                      Careful(New(reconnect), other)
  }

  /**
   What a caller has seen guarantees that each `connect()` was made at rest exactly if it was cautious: no attempt under
   way, the close events of all earlier connections seen, no retry pending, and no earlier `close()` while one was.
   */
  lemma CallersAreCarefulExactlyWhenCautious(reconnect: bool, events: seq<Event>)
    requires Run(New(reconnect), events)
    ensures SurelyCareful(reconnect, events) <==> Cautious(NOTHING_SEEN, Visible(New(reconnect), events), reconnect)
  {
    var c := New(reconnect);
    assert Lone(c.net) && Fits(NOTHING_SEEN, c.net) && Alike(NOTHING_SEEN, c, c);
    hide Visible, Cautious, Careful, Run, Lone, Fits, Alike;
    if Cautious(NOTHING_SEEN, Visible(c, events), reconnect) {
      forall other | Run(c, other) && Visible(c, other) == Visible(c, events) ensures Careful(c, other) {
        CautiousIsCareful(NOTHING_SEEN, c, other);
      }
    } else {
      var other := Unlucky(NOTHING_SEEN, c, c, events);
    }
  }
}

/**
 Several SDK instances sharing one backend credential: who connects, who is replaced, who reconnects. The gateway
 is seen through the lease of that backend (`Slot`): the newest accepted hello takes it, and the connection it takes
 it from is closed with code 4001.
 */
module Fleet {
  import opened Basics
  import Slot

  type Instance = nat

  type Sock = nat

  /** `sched` tells an attempt made by a reconnect timer from one made by `connect()`. */
  datatype Link = Link(instance: Instance, sched: bool)

  /**
   Explicit connects; `drops`: closes other than 4001 seen on a retrying instance's current socket; `lapses`: accepted
   hellos whose attempt failed, before the acceptance or before `peer_ready` was seen; accepted hellos; owner
   replacements.
   */
  datatype Tally = Tally(connects: nat, drops: nat, lapses: nat, admissions: nat, replacements: nat)

  /**
   `greeting`: the hello is not accepted yet; `abandoned`: nor was it when the attempt failed, but the gateway may still
   read it; `answered`: accepted, but the SDK has not seen `peer_ready`; `up`: connected for the SDK. `current` is each
   instance's `socket` field, `closed` its flag, `timers` the running reconnect timers, `closing` the close events on
   their way to the SDK with whether their code is 4001, `owner` the holder of the lease.
   */
  datatype Fleet = Fleet(
    links: map<Sock, Link>, greeting: set<Sock>, abandoned: set<Sock>, answered: set<Sock>, up: set<Sock>,
    current: map<Instance, Sock>, closed: set<Instance>, timers: seq<Instance>,
    closing: map<Sock, bool>, owner: Option<Sock>, tally: Tally)

  const NEW_FLEET := Fleet(map[], {}, {}, {}, {}, map[], {}, [], map[], None, Tally(0, 0, 0, 0, 0))

  /**
   `Refused`: the gateway refused the hello of a cached token, and the attempt goes on with a new token on a new socket.
   `retries` is the instance's `reconnect` option.
   */
  datatype Event =
    | Connect(instance: Instance, sock: Sock)
    | TimerFires(at: nat, sock: Sock)
    | Admit(sock: Sock)
    | Ready(sock: Sock)
    | AttemptFails(sock: Sock)
    | GatewayDrops(sock: Sock)
    | Refused(sock: Sock, again: Sock)
    | CloseSeen(sock: Sock, retries: bool)
    | LinkLost(sock: Sock, retries: bool)
    | UserCloses(instance: Instance)

  /**
   `peer_ready` precedes a close on the wire, so only a connected socket sees one here. A link may break at any time,
   also while a 4001 is on its way: the gateway terminates a replaced peer that does not answer the close.
   */
  predicate Enabled(f: Fleet, e: Event) {
    match e
    case Connect(_, sock) => sock !in f.links
    case TimerFires(at, sock) => at < |f.timers| && sock !in f.links
    case Admit(sock) => sock in f.greeting || sock in f.abandoned
    case Ready(sock) => sock in f.answered
    case AttemptFails(sock) => sock in f.greeting || sock in f.answered
    case GatewayDrops(sock) => f.owner == Some(sock)
    case Refused(sock, again) => sock in f.greeting && again !in f.links
    case CloseSeen(sock, _) => sock in f.up && sock in f.closing
    case LinkLost(sock, _) => sock in f.up
    case UserCloses(_) => true
  }

  /** A new socket, greeting, which becomes the instance's current one. */
  function Dial(f: Fleet, instance: Instance, sock: Sock, sched: bool): Fleet {
    f.(links := f.links[sock := Link(instance, sched)], greeting := f.greeting + {sock},
       current := f.current[instance := sock])
  }

  /** `connect()`, which does not ask whether an attempt is under way. */
  function Begin(f: Fleet, i: Instance, sock: Sock): Fleet {
    Dial(f.(closed := f.closed - {i}, tally := f.tally.(connects := f.tally.connects + 1)), i, sock, false)
  }

  /** A reconnect timer fires; after `close()` it does nothing. */
  function Redial(f: Fleet, at: nat, sock: Sock): Fleet
    requires at < |f.timers|
  {
    var i, g := f.timers[at], f.(timers := f.timers[..at] + f.timers[at + 1..]);
    if i in f.closed then g else Dial(g, i, sock, true)
  }

  function Established(f: Fleet, sock: Sock): Fleet {
    f.(answered := f.answered - {sock}, up := f.up + {sock})
  }

  predicate Listens(f: Fleet, sock: Sock) { sock in f.answered || sock in f.up }

  /** The gateway ends the lease for another reason than a replacement. */
  function Dropped(f: Fleet, sock: Sock): Fleet {
    f.(owner := Slot.After(f.owner, Slot.Release),
       closing := if Listens(f, sock) then f.closing[sock := false] else f.closing)
  }

  function Shut(f: Fleet, i: Instance): Fleet {
    f.(closed := f.closed + {i}, current := f.current - {i})
  }

  function Forget(f: Fleet, sock: Sock): Fleet {
    f.(greeting := f.greeting - {sock}, answered := f.answered - {sock}, up := f.up - {sock},
       closing := f.closing - {sock})
  }

  /** `handleClose`: stale sockets are ignored, one that was replaced or does not retry stands down. */
  function Closed(f: Fleet, sock: Sock, final: bool): Fleet
    requires sock in f.links
  {
    var i, g := f.links[sock].instance, Forget(f, sock);
    if i !in f.current || f.current[i] != sock then g
    else
      var idle := g.(current := g.current - {i});
      if final || i in f.closed then idle
      else idle.(timers := idle.timers + [i], tally := idle.tally.(drops := idle.tally.drops + 1))
  }

  /** The gateway accepts a hello, perhaps of an attempt that has been given up meanwhile. */
  function Accept(f: Fleet, sock: Sock): Fleet {
    var told := Slot.Dismissed(f.owner, Slot.Take(sock));
    f.(greeting := f.greeting - {sock}, abandoned := f.abandoned - {sock},
       answered := if sock in f.abandoned then f.answered else f.answered + {sock},
       owner := Slot.After(f.owner, Slot.Take(sock)),
       closing := if told.Some? && Listens(f, told.value) then f.closing[told.value := true] else f.closing,
       tally := f.tally.(admissions := f.tally.admissions + 1,
                         lapses := if sock in f.abandoned then f.tally.lapses + 1 else f.tally.lapses,
                         replacements := if told.Some? then f.tally.replacements + 1 else f.tally.replacements))
  }

  /** A scheduled attempt that fails is scheduled again; a failed `connect()` is the caller's to repeat. */
  function Fail(f: Fleet, sock: Sock): Fleet
    requires sock in f.links
  {
    var link, g := f.links[sock], Forget(f, sock);
    var stale := link.instance in g.current && g.current[link.instance] == sock;
    g.(current := if stale then g.current - {link.instance} else g.current,
       timers := if link.sched then g.timers + [link.instance] else g.timers,
       abandoned := if sock in f.greeting then g.abandoned + {sock} else g.abandoned,
       tally := if sock in f.answered then g.tally.(lapses := g.tally.lapses + 1) else g.tally)
  }

  /** The second handshake of one attempt. */
  function Retold(f: Fleet, sock: Sock, again: Sock): Fleet
    requires sock in f.links
  {
    f.(links := f.links[again := f.links[sock]], greeting := f.greeting - {sock} + {again},
       current := f.current[f.links[sock].instance := again])
  }

  function Step(f: Fleet, e: Event): Fleet
    requires Enabled(f, e) && f.greeting + f.answered + f.up <= f.links.Keys
  {
    match e
    case Connect(i, sock) => Begin(f, i, sock)
    case TimerFires(at, sock) => Redial(f, at, sock)
    case Admit(sock) => Accept(f, sock)
    case Ready(sock) => Established(f, sock)
    case AttemptFails(sock) => Fail(f, sock)
    case GatewayDrops(sock) => Dropped(f, sock)
    case Refused(sock, again) => Retold(f, sock, again)
    case CloseSeen(sock, retries) => Closed(f, sock, f.closing[sock] || !retries)
    case LinkLost(sock, retries) => Closed(f, sock, !retries)
    case UserCloses(i) => Shut(f, i)
  }

  // ---- Every run -----------------------------------------------------------

  /** The phases are apart, and every socket in one of them is known. */
  predicate Apart(greeting: set<Sock>, abandoned: set<Sock>, answered: set<Sock>, up: set<Sock>, all: set<Sock>) {
    && greeting + abandoned + answered + up <= all
    && greeting !! abandoned && greeting !! answered && greeting !! up
    && abandoned !! answered && abandoned !! up && answered !! up
  }

  predicate Known(f: Fleet) { Apart(f.greeting, f.abandoned, f.answered, f.up, f.links.Keys) }

  lemma ApartLess(greeting: set<Sock>, abandoned: set<Sock>, answered: set<Sock>, up: set<Sock>, all: set<Sock>,
                  s: Sock)
    requires Apart(greeting, abandoned, answered, up, all)
    ensures Apart(greeting - {s}, abandoned, answered - {s}, up - {s}, all)
    ensures |greeting - {s}| == if s in greeting then |greeting| - 1 else |greeting|
    ensures s in up ==> greeting - {s} == greeting && answered - {s} == answered
  {
    if s !in greeting { assert greeting - {s} == greeting; }
    if s in up { assert answered - {s} == answered; }
  }

  lemma ApartGivenUp(greeting: set<Sock>, abandoned: set<Sock>, answered: set<Sock>, up: set<Sock>, all: set<Sock>,
                     s: Sock)
    requires Apart(greeting, abandoned, answered, up, all) && s in greeting
    ensures Apart(greeting - {s}, abandoned + {s}, answered - {s}, up - {s}, all)
  {
  }

  /**
   Every attempt goes back to a `connect()`, a drop or a lapse, and every replacement to an accepted hello but the
   first.
   */
  predicate Accounted(f: Fleet) {
    var c := f.tally;
    && |f.timers| + |f.greeting| + c.admissions <= c.connects + c.drops + c.lapses
    && (if c.admissions == 0 then c.replacements == 0 && f.owner.None? else c.replacements < c.admissions)
  }

  lemma ConnectIsAccounted(f: Fleet, i: Instance, sock: Sock)
    requires Known(f) && Accounted(f) && sock !in f.links
    ensures Known(Begin(f, i, sock)) && Accounted(Begin(f, i, sock))
  {
    assert |f.greeting + {sock}| == |f.greeting| + 1;
  }

  lemma TimerIsAccounted(f: Fleet, at: nat, sock: Sock)
    requires Known(f) && Accounted(f) && Enabled(f, TimerFires(at, sock))
    ensures Known(Redial(f, at, sock)) && Accounted(Redial(f, at, sock))
  {
    assert |f.greeting + {sock}| == |f.greeting| + 1;
    assert |f.timers[..at] + f.timers[at + 1..]| == |f.timers| - 1;
    if f.timers[at] in f.closed {
    } else {
    }
  }

  lemma AcceptIsAccounted(f: Fleet, sock: Sock)
    requires Known(f) && Accounted(f) && (sock in f.greeting || sock in f.abandoned)
    ensures Known(Accept(f, sock)) && Accounted(Accept(f, sock))
  {
    hide Apart;
    AdmittedSets(f.greeting, f.abandoned, f.answered, f.up, f.links.Keys, sock);
  }

  lemma AdmittedSets(greeting: set<Sock>, abandoned: set<Sock>, answered: set<Sock>, up: set<Sock>, all: set<Sock>,
                     s: Sock)
    requires Apart(greeting, abandoned, answered, up, all) && (s in greeting || s in abandoned)
    ensures Apart(greeting - {s}, abandoned - {s}, if s in abandoned then answered else answered + {s}, up, all)
    ensures |greeting - {s}| == if s in abandoned then |greeting| else |greeting| - 1
  {
    if s in abandoned { assert greeting - {s} == greeting; }
  }

  /** Forgetting a socket that is past its greeting leaves the numbers alone. */
  lemma ForgetIs(f: Fleet, sock: Sock)
    requires Known(f) && sock in f.links
    ensures var g := Forget(f, sock);
      && Known(g) && |g.greeting| == (if sock in f.greeting then |f.greeting| - 1 else |f.greeting|)
      && (sock in f.greeting ==> Known(g.(abandoned := f.abandoned + {sock})))
      && g.abandoned == f.abandoned && g.links == f.links && g.current == f.current && g.closed == f.closed
      && g.timers == f.timers && g.owner == f.owner && g.tally == f.tally
  {
    hide Apart;
    ApartLess(f.greeting, f.abandoned, f.answered, f.up, f.links.Keys, sock);
    if sock in f.greeting { ApartGivenUp(f.greeting, f.abandoned, f.answered, f.up, f.links.Keys, sock); }
  }

  lemma FailIsAccounted(f: Fleet, sock: Sock)
    requires Known(f) && Accounted(f) && (sock in f.greeting || sock in f.answered)
    ensures Known(Fail(f, sock)) && Accounted(Fail(f, sock))
  {
    hide Forget;
    ForgetIs(f, sock);
  }

  lemma ClosedIsAccounted(f: Fleet, sock: Sock, replaced: bool)
    requires Known(f) && Accounted(f) && sock in f.up
    ensures Known(Closed(f, sock, replaced)) && Accounted(Closed(f, sock, replaced))
  {
    hide Forget;
    ForgetIs(f, sock);
  }

  lemma OthersAreAccounted(f: Fleet, sock: Sock, i: Instance)
    requires Known(f) && Accounted(f)
    ensures sock in f.answered ==> Known(Established(f, sock)) && Accounted(Established(f, sock))
    ensures f.owner == Some(sock) ==> Known(Dropped(f, sock)) && Accounted(Dropped(f, sock))
    ensures Known(Shut(f, i)) && Accounted(Shut(f, i))
  {
  }

  lemma RetoldSets(greeting: set<Sock>, abandoned: set<Sock>, answered: set<Sock>, up: set<Sock>, all: set<Sock>,
                   s: Sock, t: Sock)
    requires Apart(greeting, abandoned, answered, up, all) && s in greeting && t !in all
    ensures Apart(greeting - {s} + {t}, abandoned, answered, up, all + {t})
    ensures |greeting - {s} + {t}| == |greeting|
  {
    assert |greeting - {s}| == |greeting| - 1;
  }

  lemma RetoldIsAccounted(f: Fleet, sock: Sock, again: Sock)
    requires Known(f) && Accounted(f) && Enabled(f, Refused(sock, again)) && sock in f.links
    ensures Known(Retold(f, sock, again)) && Accounted(Retold(f, sock, again))
  {
    hide Apart;
    RetoldSets(f.greeting, f.abandoned, f.answered, f.up, f.links.Keys, sock, again);
    assert f.links[again := f.links[sock]].Keys == f.links.Keys + {again};
  }

  lemma StepIsAccounted(f: Fleet, e: Event)
    requires Known(f) && Accounted(f) && Enabled(f, e)
    ensures Known(Step(f, e)) && Accounted(Step(f, e))
  {
    hide Begin, Redial, Accept, Established, Fail, Dropped, Closed, Shut, Retold, Accounted;
    match e
    case Connect(i, sock) => ConnectIsAccounted(f, i, sock);
    case TimerFires(at, sock) => TimerIsAccounted(f, at, sock);
    case Admit(sock) => AcceptIsAccounted(f, sock);
    case AttemptFails(sock) => FailIsAccounted(f, sock);
    case Refused(sock, again) => RetoldIsAccounted(f, sock, again);
    case CloseSeen(sock, retries) => ClosedIsAccounted(f, sock, f.closing[sock] || !retries);
    case LinkLost(sock, retries) => ClosedIsAccounted(f, sock, !retries);
    case Ready(sock) => OthersAreAccounted(f, sock, 0);
    case GatewayDrops(sock) => OthersAreAccounted(f, sock, 0);
    case UserCloses(i) => OthersAreAccounted(f, 0, i);
  }

  predicate Run(f: Fleet, events: seq<Event>)
    requires Known(f)
    decreases |events|
  {
    events == [] || (Enabled(f, events[0]) && Known(Step(f, events[0])) && Run(Step(f, events[0]), events[1..]))
  }

  function Reached(f: Fleet, events: seq<Event>): (g: Fleet)
    requires Known(f) && Run(f, events)
    ensures Known(g)
    decreases |events|
  {
    if events == [] then f else Reached(Step(f, events[0]), events[1..])
  }

  lemma {:induction false} RunIsAccounted(f: Fleet, events: seq<Event>)
    requires Known(f) && Accounted(f) && Run(f, events)
    ensures Accounted(Reached(f, events))
    decreases |events|
  {
    if events != [] {
      StepIsAccounted(f, events[0]);
      RunIsAccounted(Step(f, events[0]), events[1..]);
    }
  }

  /**
   No flapping: over any run of any number of instances, the lease changes hands less often than there were
   explicit connects, drops and lapses together. Being replaced never causes another replacement.
   */
  lemma ReplacementsAreBounded(events: seq<Event>)
    requires Run(NEW_FLEET, events)
    ensures var c := Reached(NEW_FLEET, events).tally;
      var causes := c.connects + c.drops + c.lapses;
      c.replacements <= if causes == 0 then 0 else causes - 1
  {
    RunIsAccounted(NEW_FLEET, events);
  }

  // ---- Who holds the lease and who hears of losing it ----------------------

  /** Of the accepted connections exactly the lease's holder has no close on its way. */
  predicate Heeded(f: Fleet) {
    && f.closing.Keys <= f.answered + f.up
    && forall s :: s in f.answered + f.up ==> (f.owner == Some(s) <==> s !in f.closing)
  }

  lemma StepIsHeeded(f: Fleet, e: Event)
    requires Known(f) && Heeded(f) && Enabled(f, e)
    ensures Heeded(Step(f, e))
  {
  }

  lemma {:induction false} RunIsHeeded(f: Fleet, events: seq<Event>)
    requires Known(f) && Heeded(f) && Run(f, events)
    ensures Heeded(Reached(f, events))
    decreases |events|
  {
    hide Heeded, Enabled, Step;
    if events != [] {
      StepIsHeeded(f, events[0]);
      RunIsHeeded(Step(f, events[0]), events[1..]);
    }
  }

  /**
   Nobody believes in a lease it has lost without hearing of it: in every run, a connection the gateway has accepted
   and its SDK still listens on holds the lease, or a close is on its way to it, and never both.
   */
  lemma AcceptedHoldOrHear(events: seq<Event>, sock: Sock)
    requires Run(NEW_FLEET, events)
    ensures var f := Reached(NEW_FLEET, events);
      sock in f.answered || sock in f.up ==> (f.owner == Some(sock) <==> sock !in f.closing)
  {
    RunIsHeeded(NEW_FLEET, events);
  }

  /** The instance is closed, none of its hellos is on its way, and all its sockets are among these. */
  predicate Down(f: Fleet, i: Instance, all: set<Sock>) {
    && i in f.closed
    && (forall s :: s in f.greeting ==> s in f.links && f.links[s].instance != i)
    && (forall s :: s in f.links && f.links[s].instance == i ==> s in all)
  }

  lemma DownStep(f: Fleet, e: Event, i: Instance, all: set<Sock>)
    requires Known(f) && Down(f, i, all) && Enabled(f, e) && (e.Connect? ==> e.instance != i)
    ensures Down(Step(f, e), i, all)
  {
    hide Apart;
    match e
    case Connect(_, sock) =>
    case TimerFires(at, sock) =>
    case Refused(sock, again) =>
    case _ =>
  }

  lemma {:induction false} DownStays(f: Fleet, events: seq<Event>, i: Instance, all: set<Sock>)
    requires Known(f) && Run(f, events) && Down(f, i, all)
    requires forall e :: e in events && e.Connect? ==> e.instance != i
    ensures Down(Reached(f, events), i, all)
    decreases |events|
  {
    if events != [] {
      assert events[0] in events;
      DownStep(f, events[0], i, all);
      hide Down, Step, Enabled;
      DownStays(Step(f, events[0]), events[1..], i, all);
    }
  }

  /**
   An instance that is closed while none of its hellos is on its way dials nothing more, whatever timers and closes are
   still to come, until it is connected again.
   */
  lemma ClosedStaysDown(f: Fleet, i: Instance, events: seq<Event>, s: Sock)
    requires Known(f) && Run(f, [UserCloses(i)] + events)
    requires forall x :: x in f.greeting ==> x in f.links && f.links[x].instance != i
    requires forall e :: e in events && e.Connect? ==> e.instance != i
    ensures var t := Reached(f, [UserCloses(i)] + events);
      s in t.links && t.links[s].instance == i ==> s in f.links
  {
    assert ([UserCloses(i)] + events)[1..] == events;
    DownStays(Step(f, UserCloses(i)), events, i, f.links.Keys);
  }

  lemma {:induction false} OpenStays(f: Fleet, events: seq<Event>, i: Instance)
    requires Known(f) && Run(f, events) && i !in f.closed && UserCloses(i) !in events
    ensures i !in Reached(f, events).closed
    decreases |events|
  {
    if events != [] {
      assert events[0] in events;
      assert i !in Step(f, events[0]).closed;
      hide Step, Enabled;
      OpenStays(Step(f, events[0]), events[1..], i);
    }
  }

  /**
   From its `connect()` until its `close()`, whatever happened before and in between, a retrying instance that loses the
   connection it is on redials, unless it was replaced: then it stands down.
   */
  lemma DropsAreRetried(f: Fleet, i: Instance, sock: Sock, events: seq<Event>, s: Sock)
    requires Known(f) && Run(f, [Connect(i, sock)] + events) && UserCloses(i) !in events
    requires var t := Reached(f, [Connect(i, sock)] + events);
      s in t.up && t.links[s].instance == i && i in t.current && t.current[i] == s
    ensures var t := Reached(f, [Connect(i, sock)] + events);
      && Enabled(t, LinkLost(s, true)) && Step(t, LinkLost(s, true)).timers == t.timers + [i]
      && Step(t, LinkLost(s, false)).timers == t.timers
      && (s in t.closing ==>
            Enabled(t, CloseSeen(s, true))
            && Step(t, CloseSeen(s, true)).timers == t.timers + if t.closing[s] then [] else [i])
  {
    assert ([Connect(i, sock)] + events)[1..] == events;
    OpenStays(Step(f, Connect(i, sock)), events, i);
  }

  // ---- With and without lapses ---------------------------------------------

  /** An attempt whose hello is accepted sees `peer_ready`. */
  predicate Punctual(f: Fleet, e: Event) {
    !(e.AttemptFails? && e.sock in f.answered) && !(e.Admit? && e.sock in f.abandoned)
  }

  predicate PunctualRun(f: Fleet, events: seq<Event>)
    requires Known(f) && Run(f, events)
    decreases |events|
  {
    events == [] || (Punctual(f, events[0]) && PunctualRun(Step(f, events[0]), events[1..]))
  }

  lemma StepLapses(f: Fleet, e: Event)
    requires Known(f) && Enabled(f, e)
    ensures Step(f, e).tally.lapses == if Punctual(f, e) then f.tally.lapses else f.tally.lapses + 1
  {
  }

  lemma {:induction false} LapsesAreCounted(f: Fleet, events: seq<Event>)
    requires Known(f) && Run(f, events)
    ensures Reached(f, events).tally.lapses >= f.tally.lapses
    ensures PunctualRun(f, events) <==> Reached(f, events).tally.lapses == f.tally.lapses
    decreases |events|
  {
    hide Punctual;
    if events != [] {
      StepLapses(f, events[0]);
      LapsesAreCounted(Step(f, events[0]), events[1..]);
    }
  }

  /**
   The bound that counts connects and drops alone holds of every run in which no accepted attempt fails. (That it
   does not hold of others is `FlapsWithoutBound`.)
   */
  lemma PunctualReplacementsAreBounded(events: seq<Event>)
    requires Run(NEW_FLEET, events) && PunctualRun(NEW_FLEET, events)
    ensures var c := Reached(NEW_FLEET, events).tally;
      c.replacements <= if c.connects + c.drops == 0 then 0 else c.connects + c.drops - 1
  {
    ReplacementsAreBounded(events);
    LapsesAreCounted(NEW_FLEET, events);
  }

  lemma GivenUp(f: Fleet, sock: Sock) returns (g: Fleet)
    requires Known(f) && sock in f.greeting
    ensures Leads(f, AttemptFails(sock), g) && Known(g) && sock in g.abandoned && g.owner == f.owner
    ensures g.answered == f.answered && g.up == f.up && g.closing == f.closing - {sock}
  {
    g := Step(f, AttemptFails(sock));
    FailIsAccountedFor(f, sock);
  }

  lemma FailIsAccountedFor(f: Fleet, sock: Sock)
    requires Known(f) && sock in f.greeting
    ensures Known(Fail(f, sock))
  {
    ForgetIs(f, sock);
    hide Apart, Forget;
  }

  lemma AcceptIsKnown(f: Fleet, sock: Sock)
    requires Known(f) && (sock in f.greeting || sock in f.abandoned)
    ensures Known(Accept(f, sock))
  {
    hide Apart;
    AdmittedSets(f.greeting, f.abandoned, f.answered, f.up, f.links.Keys, sock);
  }

  /** An attempt that is given up may still take the lease, with nobody left to listen on it. */
  lemma GivenUpHellosTakeTheLease(f: Fleet, sock: Sock)
    requires Known(f) && sock in f.greeting
    ensures Run(f, [AttemptFails(sock), Admit(sock)])
    ensures var t := Reached(f, [AttemptFails(sock), Admit(sock)]);
      && t.owner == Some(sock) && sock !in t.answered && sock !in t.up
      && (f.owner.Some? && f.owner.value in f.up ==> f.owner.value in t.closing && t.closing[f.owner.value])
  {
    var g := GivenUp(f, sock);
    var h := Step(g, Admit(sock));
    AcceptIsKnown(g, sock);
    RunGoesOn(g, Admit(sock), h, []);
    RunGoesOn(f, AttemptFails(sock), g, [Admit(sock)]);
    assert [AttemptFails(sock)] + [Admit(sock)] == [AttemptFails(sock), Admit(sock)];
    assert [Admit(sock)] + [] == [Admit(sock)];
    hide Apart;
  }

  /** e leads from f to g. */
  predicate Leads(f: Fleet, e: Event, g: Fleet) {
    Known(f) && Enabled(f, e) && Known(g) && g == Step(f, e)
  }

  lemma RunGoesOn(f: Fleet, e: Event, g: Fleet, rest: seq<Event>)
    requires Leads(f, e, g) && Run(g, rest)
    ensures Run(f, [e] + rest) && Reached(f, [e] + rest) == Reached(g, rest)
  {
    hide Step, Apart;
    assert ([e] + rest)[1..] == rest;
  }

  function Dialed(n: nat): (links: map<Sock, Link>)
    ensures forall k :: k in links ==> k <= n
  {
    if n == 0 then map[0 := Link(0, false)] else Dialed(n - 1)[n := Link(0, true)]
  }

  /** One instance, its first link lost, after n attempts that the gateway accepted and the SDK gave up. */
  function Flapped(n: nat): Fleet {
    Fleet(Dialed(n), {}, {}, {}, {}, map[], {}, [0], map[], Some(n), Tally(1, 1, n, n + 1, n))
  }

  function Rounds(k: nat, n: nat): seq<Event>
    decreases n
  {
    if n == 0 then []
    else [TimerFires(0, k + 1)] + ([Admit(k + 1)] + ([AttemptFails(k + 1)] + Rounds(k + 1, n - 1)))
  }

  /** The states within a round. */
  lemma OneRound(k: nat) returns (g: Fleet, h: Fleet)
    ensures Leads(Flapped(k), TimerFires(0, k + 1), g) && Leads(g, Admit(k + 1), h)
    ensures Leads(h, AttemptFails(k + 1), Flapped(k + 1))
  {
    var f := Flapped(k);
    g := Step(f, TimerFires(0, k + 1));
    assert g == f.(links := Dialed(k + 1), greeting := {k + 1}, timers := [], current := map[0 := k + 1]);
    h := Step(g, Admit(k + 1));
    assert h == g.(greeting := {}, answered := {k + 1}, owner := Some(k + 1), tally := Tally(1, 1, k, k + 2, k + 1));
    assert map[0 := k + 1] - {0} == map[];
  }

  lemma {:induction false} RoundsFlap(k: nat, n: nat)
    ensures Known(Flapped(k)) && Run(Flapped(k), Rounds(k, n))
    ensures Reached(Flapped(k), Rounds(k, n)) == Flapped(k + n)
    decreases n
  {
    hide Leads, Step, Dialed;
    if n > 0 {
      var g, h := OneRound(k);
      RoundsFlap(k + 1, n - 1);
      RunGoesOn(h, AttemptFails(k + 1), Flapped(k + 1), Rounds(k + 1, n - 1));
      RunGoesOn(g, Admit(k + 1), h, [AttemptFails(k + 1)] + Rounds(k + 1, n - 1));
      RunGoesOn(Flapped(k), TimerFires(0, k + 1), g, [Admit(k + 1)] + ([AttemptFails(k + 1)] + Rounds(k + 1, n - 1)));
    }
  }

  /** One instance connects and loses its link, which the gateway does not notice. */
  function ThenFlaps(n: nat): seq<Event> {
    [Connect(0, 0)] + ([Admit(0)] + ([Ready(0)] + ([LinkLost(0, true)] + Rounds(0, n))))
  }

  lemma FirstLink() returns (f: Fleet, g: Fleet, h: Fleet)
    ensures Leads(NEW_FLEET, Connect(0, 0), f) && Leads(f, Admit(0), g) && Leads(g, Ready(0), h)
    ensures Leads(h, LinkLost(0, true), Flapped(0))
  {
    f := Step(NEW_FLEET, Connect(0, 0));
    assert f == NEW_FLEET.(links := Dialed(0), greeting := {0}, current := map[0 := 0], tally := Tally(1, 0, 0, 0, 0));
    g := Step(f, Admit(0));
    assert g == f.(greeting := {}, answered := {0}, owner := Some(0), tally := Tally(1, 0, 0, 1, 0));
    h := Step(g, Ready(0));
    assert h == g.(answered := {}, up := {0});
    assert map[0 := 0] - {0} == map[];
  }

  /** One connect and one drop, yet the lease changes hands n times, for every n. */
  lemma FlapsWithoutBound(n: nat)
    ensures Run(NEW_FLEET, ThenFlaps(n))
    ensures var c := Reached(NEW_FLEET, ThenFlaps(n)).tally; c.connects == 1 && c.drops == 1 && c.replacements == n
  {
    hide Leads, Step, Dialed;
    var f, g, h := FirstLink();
    RoundsFlap(0, n);
    RunGoesOn(h, LinkLost(0, true), Flapped(0), Rounds(0, n));
    RunGoesOn(g, Ready(0), h, [LinkLost(0, true)] + Rounds(0, n));
    RunGoesOn(f, Admit(0), g, [Ready(0)] + ([LinkLost(0, true)] + Rounds(0, n)));
    RunGoesOn(NEW_FLEET, Connect(0, 0), f, [Admit(0)] + ([Ready(0)] + ([LinkLost(0, true)] + Rounds(0, n))));
  }

  // ---- Runs without losses -------------------------------------------------

  /**
   No socket of the instance waits for its hello to be accepted. This is so whenever the promises of the instance's
   `connect()` calls are settled; whether it is connected does not matter.
   */
  predicate Idle(greeting: set<Sock>, links: map<Sock, Link>, i: Instance) {
    forall s :: s in greeting ==> s in links && links[s].instance != i
  }

  /**
   Nothing but connects of idle instances, their handshakes, second ones included, and the closes of those that were
   replaced.
   */
  predicate Undisturbed(f: Fleet, e: Event) {
    e.Admit? || e.Ready? || e.CloseSeen? || e.Refused? || (e.Connect? && Idle(f.greeting, f.links, e.instance))
  }

  predicate UndisturbedRun(f: Fleet, events: seq<Event>)
    requires Known(f) && Run(f, events)
    decreases |events|
  {
    events == [] || (Undisturbed(f, events[0]) && UndisturbedRun(Step(f, events[0]), events[1..]))
  }

  /** All accepted sockets but the owner's have been told that they were replaced. */
  ghost predicate OthersTold(accepted: set<Sock>, closing: map<Sock, bool>, owner: Option<Sock>) {
    && (owner.Some? ==> owner.value in accepted && owner.value !in closing)
    && (forall s :: s in closing ==> closing[s] && s in accepted)
    && (forall s :: s in accepted && owner != Some(s) ==> s in closing)
  }

  /** The instance of a socket, and whether the instance considers it current. */
  predicate IsCurrent(links: map<Sock, Link>, current: map<Instance, Sock>, s: Sock) {
    s in links && links[s].instance in current && current[links[s].instance] == s
  }

  /**
   Greeting sockets are current; a current socket is live; the owner's instance looks at the owner, or already at a
   later socket that is still greeting.
   */
  ghost predicate Followed(greeting: set<Sock>, accepted: set<Sock>, links: map<Sock, Link>,
                           current: map<Instance, Sock>, owner: Option<Sock>)
  {
    && (forall s :: s in greeting ==> IsCurrent(links, current, s))
    && (forall i :: i in current ==> current[i] in greeting + accepted && IsCurrent(links, current, current[i])
                                     && links[current[i]].instance == i)
    && (owner.Some? ==> owner.value in links && links[owner.value].instance in current
                        && (current[links[owner.value].instance] == owner.value
                            || current[links[owner.value].instance] in greeting))
  }

  function Accepted(f: Fleet): set<Sock> { f.answered + f.up }

  /** Each connect is still greeting or was accepted; nobody retries; the lease is never given up. */
  predicate Unhurried(f: Fleet) {
    var c := f.tally;
    && f.timers == [] && f.abandoned == {} && c.drops == 0 && c.connects == |f.greeting| + c.admissions
    && (c.admissions > 0 <==> f.owner.Some?)
    && c.replacements == if c.admissions == 0 then 0 else c.admissions - 1
  }

  /** What does not depend on whose sockets they are. */
  ghost predicate Tidy(f: Fleet) {
    Known(f) && Unhurried(f) && OthersTold(Accepted(f), f.closing, f.owner)
  }

  ghost predicate Orderly(f: Fleet) {
    Tidy(f) && Followed(f.greeting, Accepted(f), f.links, f.current, f.owner)
  }

  lemma OneMoreSocket(greeting: set<Sock>, accepted: set<Sock>, links: map<Sock, Link>, current: map<Instance, Sock>,
                      owner: Option<Sock>, i: Instance, s: Sock)
    requires Followed(greeting, accepted, links, current, owner) && s !in links && Idle(greeting, links, i)
    ensures Followed(greeting + {s}, accepted, links[s := Link(i, false)], current[i := s], owner)
  {
  }

  lemma OneMoreFollowed(greeting: set<Sock>, accepted: set<Sock>, links: map<Sock, Link>, current: map<Instance, Sock>,
                        owner: Option<Sock>, s: Sock)
    requires Followed(greeting, accepted, links, current, owner) && s in greeting
    ensures Followed(greeting - {s}, accepted + {s}, links, current, Some(s))
  {
  }

  lemma OneFollowedLess(greeting: set<Sock>, accepted: set<Sock>, links: map<Sock, Link>, current: map<Instance, Sock>,
                        owner: Option<Sock>, s: Sock)
    requires Followed(greeting, accepted, links, current, owner) && s in links && s !in greeting && owner != Some(s)
    ensures var i := links[s].instance;
      Followed(greeting, accepted - {s}, links, if IsCurrent(links, current, s) then current - {i} else current, owner)
  {
  }

  lemma OneMoreAccepted(accepted: set<Sock>, closing: map<Sock, bool>, owner: Option<Sock>, s: Sock)
    requires OthersTold(accepted, closing, owner) && s !in accepted
    ensures OthersTold(accepted + {s}, if owner.Some? then closing[owner.value := true] else closing, Some(s))
  {
  }

  lemma OneAcceptedLess(accepted: set<Sock>, closing: map<Sock, bool>, owner: Option<Sock>, s: Sock)
    requires OthersTold(accepted, closing, owner) && s in closing
    ensures OthersTold(accepted - {s}, closing - {s}, owner)
  {
  }

  lemma GreetingMore(greeting: set<Sock>, abandoned: set<Sock>, answered: set<Sock>, up: set<Sock>, all: set<Sock>,
                     s: Sock)
    requires Apart(greeting, abandoned, answered, up, all) && s !in all
    ensures Apart(greeting + {s}, abandoned, answered, up, all + {s}) && |greeting + {s}| == |greeting| + 1
  {
  }

  lemma ConnectMoves(f: Fleet, i: Instance, sock: Sock)
    requires Tidy(f) && sock !in f.links
    ensures var t := Begin(f, i, sock);
      && Tidy(t) && t.greeting == f.greeting + {sock} && t.answered == f.answered && t.up == f.up
      && t.links == f.links[sock := Link(i, false)] && t.current == f.current[i := sock] && t.owner == f.owner
      && t.closing == f.closing
  {
    hide Apart, OthersTold;
    GreetingMore(f.greeting, f.abandoned, f.answered, f.up, f.links.Keys, sock);
    assert f.links[sock := Link(i, false)].Keys == f.links.Keys + {sock};
  }

  lemma ConnectIsOrderly(f: Fleet, i: Instance, sock: Sock)
    requires Orderly(f) && sock !in f.links && Idle(f.greeting, f.links, i)
    ensures Orderly(Begin(f, i, sock))
  {
    hide Followed, Tidy, Begin, Idle;
    ConnectMoves(f, i, sock);
    OneMoreSocket(f.greeting, Accepted(f), f.links, f.current, f.owner, i, sock);
  }

  lemma RetoldMoves(f: Fleet, sock: Sock, again: Sock)
    requires Tidy(f) && sock in f.greeting && again !in f.links
    ensures sock in f.links
    ensures var t, link := Retold(f, sock, again), f.links[sock];
      && Tidy(t) && t.greeting == f.greeting - {sock} + {again} && t.answered == f.answered && t.up == f.up
      && t.links == f.links[again := link] && t.current == f.current[link.instance := again]
      && t.owner == f.owner && t.closing == f.closing
  {
    hide Apart, OthersTold;
    GreetingIsKnown(f, sock);
    RetoldSets(f.greeting, f.abandoned, f.answered, f.up, f.links.Keys, sock, again);
    assert f.links[again := f.links[sock]].Keys == f.links.Keys + {again};
  }

  lemma GreetingIsKnown(f: Fleet, sock: Sock)
    requires Known(f) && sock in f.greeting
    ensures sock in f.links
  {
  }

  lemma OneRetold(greeting: set<Sock>, accepted: set<Sock>, links: map<Sock, Link>, current: map<Instance, Sock>,
                  owner: Option<Sock>, s: Sock, t: Sock)
    requires Followed(greeting, accepted, links, current, owner) && s in greeting && s in links && t !in links
    ensures Followed(greeting - {s} + {t}, accepted, links[t := links[s]],
                     current[links[s].instance := t], owner)
  {
  }

  lemma RetoldIsOrderly(f: Fleet, sock: Sock, again: Sock)
    requires Orderly(f) && sock in f.greeting && again !in f.links
    ensures sock in f.links && Orderly(Retold(f, sock, again))
  {
    hide Followed, Tidy, Retold;
    RetoldMoves(f, sock, again);
    OneRetold(f.greeting, Accepted(f), f.links, f.current, f.owner, sock, again);
  }

  lemma OwnerListens(f: Fleet)
    requires Tidy(f)
    ensures f.owner.Some? ==> Listens(f, f.owner.value)
  {
  }

  lemma AcceptSets(greeting: set<Sock>, abandoned: set<Sock>, answered: set<Sock>, up: set<Sock>, all: set<Sock>,
                   s: Sock)
    requires Apart(greeting, abandoned, answered, up, all) && s in greeting && abandoned == {}
    ensures Apart(greeting - {s}, {}, answered + {s}, up, all) && |greeting - {s}| == |greeting| - 1
    ensures answered + {s} + up == answered + up + {s} && s !in answered + up && abandoned - {s} == {}
  {
  }

  lemma AcceptMoves(f: Fleet, sock: Sock)
    requires Tidy(f) && sock in f.greeting
    ensures var t := Accept(f, sock);
      && Tidy(t) && t.greeting == f.greeting - {sock} && t.answered == f.answered + {sock} && t.up == f.up
      && Accepted(t) == Accepted(f) + {sock} && t.owner == Some(sock) && t.links == f.links && t.current == f.current
  {
    hide Apart, OthersTold;
    OwnerListens(f);
    AcceptSets(f.greeting, f.abandoned, f.answered, f.up, f.links.Keys, sock);
    OneMoreAccepted(Accepted(f), f.closing, f.owner, sock);
  }

  lemma AcceptIsOrderly(f: Fleet, sock: Sock)
    requires Orderly(f) && sock in f.greeting
    ensures Orderly(Accept(f, sock))
  {
    hide Followed, Tidy, Accept, Accepted;
    AcceptMoves(f, sock);
    OneMoreFollowed(f.greeting, Accepted(f), f.links, f.current, f.owner, sock);
  }

  lemma ReadySets(greeting: set<Sock>, abandoned: set<Sock>, answered: set<Sock>, up: set<Sock>, all: set<Sock>,
                  s: Sock)
    requires Apart(greeting, abandoned, answered, up, all) && s in answered
    ensures Apart(greeting, abandoned, answered - {s}, up + {s}, all)
    ensures answered - {s} + (up + {s}) == answered + up
  {
  }

  lemma ReadyMoves(f: Fleet, sock: Sock)
    requires Tidy(f) && sock in f.answered
    ensures var t := Established(f, sock);
      && Tidy(t) && t.greeting == f.greeting && t.answered == f.answered - {sock} && Accepted(t) == Accepted(f)
      && t.links == f.links && t.current == f.current && t.owner == f.owner
  {
    hide Apart, OthersTold;
    ReadySets(f.greeting, f.abandoned, f.answered, f.up, f.links.Keys, sock);
  }

  lemma WithoutUp(greeting: set<Sock>, abandoned: set<Sock>, answered: set<Sock>, up: set<Sock>, all: set<Sock>,
                  s: Sock)
    requires Apart(greeting, abandoned, answered, up, all) && s in up
    ensures greeting - {s} == greeting && answered - {s} == answered && answered + (up - {s}) == answered + up - {s}
    ensures Apart(greeting, abandoned, answered, up - {s}, all)
  {
  }

  lemma ClosingIsReplacement(f: Fleet, sock: Sock)
    requires Tidy(f) && sock in f.closing
    ensures f.closing[sock] && sock in Accepted(f) && f.owner != Some(sock)
  {
  }

  lemma ForgetUp(f: Fleet, sock: Sock)
    requires f.greeting - {sock} == f.greeting && f.answered - {sock} == f.answered
    ensures Forget(f, sock) == f.(up := f.up - {sock}, closing := f.closing - {sock})
  {
  }

  lemma UpLeaves(f: Fleet, sock: Sock)
    requires Tidy(f) && sock in f.up && sock in f.closing
    ensures var g := f.(up := f.up - {sock}, closing := f.closing - {sock});
      Tidy(g) && Accepted(g) == Accepted(f) - {sock}
  {
    hide Apart, OthersTold;
    var g := f.(up := f.up - {sock}, closing := f.closing - {sock});
    WithoutUp(f.greeting, f.abandoned, f.answered, f.up, f.links.Keys, sock);
    assert Accepted(g) == Accepted(f) - {sock};
    OneAcceptedLess(Accepted(f), f.closing, f.owner, sock);
    assert Unhurried(g);
    assert Known(g);
  }

  lemma UpForgotten(f: Fleet, sock: Sock)
    requires Tidy(f) && sock in f.up && sock in f.closing
    ensures var g := f.(up := f.up - {sock}, closing := f.closing - {sock});
      Forget(f, sock) == g && Tidy(g) && Accepted(g) == Accepted(f) - {sock}
  {
    hide Apart, OthersTold, Forget, Accepted, Unhurried;
    WithoutUp(f.greeting, f.abandoned, f.answered, f.up, f.links.Keys, sock);
    ForgetUp(f, sock);
    UpLeaves(f, sock);
  }

  lemma UpIsKnown(f: Fleet, sock: Sock)
    requires Known(f) && sock in f.up
    ensures sock in f.links && sock !in f.greeting
  {
  }

  lemma TidyIgnoresCurrent(f: Fleet, current: map<Instance, Sock>)
    requires Tidy(f)
    ensures Tidy(f.(current := current))
  {
    hide OthersTold, Apart;
  }

  lemma LeaveMoves(f: Fleet, sock: Sock)
    requires Tidy(f) && sock in f.up && sock in f.closing
    ensures sock in f.links && f.closing[sock] && f.owner != Some(sock) && sock !in f.greeting
    ensures var t := Closed(f, sock, true);
      && Tidy(t) && t.greeting == f.greeting && t.answered == f.answered && Accepted(t) == Accepted(f) - {sock}
      && t.closing == f.closing - {sock} && t.links == f.links && t.owner == f.owner
      && t.current == if IsCurrent(f.links, f.current, sock) then f.current - {f.links[sock].instance} else f.current
  {
    hide Tidy, Forget, Apart;
    TidyIsKnown(f);
    UpIsKnown(f, sock);
    ClosingIsReplacement(f, sock);
    UpForgotten(f, sock);
    TidyIgnoresCurrent(Forget(f, sock), f.current - {f.links[sock].instance});
  }

  lemma LeaveIsOrderly(f: Fleet, sock: Sock)
    requires Orderly(f) && sock in f.up && sock in f.closing
    ensures sock in f.links && f.closing[sock] && Orderly(Closed(f, sock, true))
  {
    hide Followed, Tidy, Closed, Accepted;
    LeaveMoves(f, sock);
    OneFollowedLess(f.greeting, Accepted(f), f.links, f.current, f.owner, sock);
  }

  lemma TidyIsKnown(f: Fleet)
    requires Tidy(f)
    ensures Known(f) && f.abandoned == {}
  {
  }

  lemma StepIsOrderly(f: Fleet, e: Event)
    requires Orderly(f) && Known(f) && Enabled(f, e) && Undisturbed(f, e)
    ensures Orderly(Step(f, e))
  {
    hide Begin, Redial, Accept, Established, Fail, Dropped, Closed, Shut, Retold, Tidy, Followed, Idle, Accepted;
    TidyIsKnown(f);
    match e
    case Connect(i, sock) => ConnectIsOrderly(f, i, sock);
    case Admit(sock) => AcceptIsOrderly(f, sock);
    case Ready(sock) => ReadyMoves(f, sock);
    case Refused(sock, again) => RetoldIsOrderly(f, sock, again);
    case CloseSeen(sock, _) => LeaveIsOrderly(f, sock);
  }

  lemma {:induction false} RunIsOrderly(f: Fleet, events: seq<Event>)
    requires Known(f) && Orderly(f) && Run(f, events) && UndisturbedRun(f, events)
    ensures Orderly(Reached(f, events))
    decreases |events|
  {
    hide Orderly, Undisturbed;
    if events != [] {
      StepIsOrderly(f, events[0]);
      RunIsOrderly(Step(f, events[0]), events[1..]);
    }
  }

  /** Nothing is under way any more. */
  predicate Settled(f: Fleet) { f.greeting == {} && f.answered == {} && f.closing == map[] }

  /** Exactly one instance is connected, and knows it: the one that holds the lease. */
  predicate OneConnected(f: Fleet) {
    && f.owner.Some? && f.up == {f.owner.value} && f.owner.value in f.links
    && f.current == map[f.links[f.owner.value].instance := f.owner.value]
  }

  lemma SettledIsOne(f: Fleet)
    requires Orderly(f) && Settled(f) && f.owner.Some?
    ensures OneConnected(f)
  {
    var o := f.owner.value;
    assert f.up == Accepted(f);
    assert f.up == {o};
    forall i | i in f.current
      ensures i == f.links[o].instance
    {
      assert f.current[i] in Accepted(f);
    }
  }

  /**
   With k connects, each of an instance none of whose hellos is on its way, there are at most k - 1 replacements, and
   once everything is delivered exactly k - 1, with exactly one instance connected: the one that holds the lease.
   */
  lemma OneInstanceStays(events: seq<Event>)
    requires Run(NEW_FLEET, events) && UndisturbedRun(NEW_FLEET, events)
    ensures var f := Reached(NEW_FLEET, events);
      && f.tally.replacements <= (if f.tally.connects == 0 then 0 else f.tally.connects - 1)
      && (Settled(f) && f.tally.connects > 0 ==>
            f.tally.replacements == f.tally.connects - 1 && OneConnected(f))
  {
    RunIsOrderly(NEW_FLEET, events);
    var f := Reached(NEW_FLEET, events);
    if Settled(f) && f.tally.connects > 0 { SettledIsOne(f); }
  }

  // ---- Overlapping connects ------------------------------------------------

  /** Every current socket of t is the same instance's in f. */
  predicate Forgets(f: map<Instance, Sock>, t: map<Instance, Sock>) {
    forall i :: i in t ==> i in f && t[i] == f[i]
  }

  /** t is f after everything on its way was delivered, `last` being the last hello. */
  ghost predicate Delivered(f: Fleet, t: Fleet, last: Option<Sock>) {
    Tidy(t) && Settled(t) && t.owner == last && t.links == f.links && Forgets(f.current, t.current)
  }

  /** e is harmless, leads from f to a tidy g, and a harmless run goes on from there. */
  lemma GoesOnUndisturbed(f: Fleet, e: Event, g: Fleet, rest: seq<Event>)
    requires Leads(f, e, g) && Undisturbed(f, e) && Run(g, rest) && UndisturbedRun(g, rest)
    ensures Run(f, [e] + rest) && UndisturbedRun(f, [e] + rest) && Reached(f, [e] + rest) == Reached(g, rest)
  {
    hide Step, Apart, Undisturbed;
    assert ([e] + rest)[1..] == rest;
  }

  lemma CloseLeads(f: Fleet, s: Sock) returns (g: Fleet)
    requires Tidy(f) && f.greeting == {} && f.answered == {} && s in f.closing
    ensures Leads(f, CloseSeen(s, true), g) && Undisturbed(f, CloseSeen(s, true))
    ensures Tidy(g) && g.greeting == {} && g.answered == {} && g.closing == f.closing - {s} && g.owner == f.owner
    ensures g.links == f.links && Forgets(f.current, g.current)
  {
    assert s in f.up && f.closing[s];
    hide Closed, Apart, OthersTold;
    LeaveMoves(f, s);
    g := Closed(f, s, true);
  }

  lemma FewerKeys(m: map<Sock, bool>, s: Sock)
    requires s in m
    ensures |m - {s}| < |m|
  {
    assert (m - {s}).Keys == m.Keys - {s};
    assert |(m - {s}).Keys| == |m.Keys| - 1;
  }

  lemma DeliveredThrough(f: Fleet, g: Fleet, t: Fleet, last: Option<Sock>)
    requires Delivered(g, t, last) && g.links == f.links && Forgets(f.current, g.current)
    ensures Delivered(f, t, last)
  {
    hide Tidy;
  }

  lemma CloseAll(f: Fleet) returns (events: seq<Event>)
    requires Tidy(f) && Known(f) && f.greeting == {} && f.answered == {}
    ensures Run(f, events) && UndisturbedRun(f, events) && Delivered(f, Reached(f, events), f.owner)
    decreases |f.closing|
  {
    hide Tidy, Leads, Undisturbed, Step, Known;
    if f.closing == map[] {
      events := [];
    } else {
      var s :| s in f.closing;
      var g := CloseLeads(f, s);
      FewerKeys(f.closing, s);
      TidyIsKnown(g);
      var rest := CloseAll(g);
      GoesOnUndisturbed(f, CloseSeen(s, true), g, rest);
      DeliveredThrough(f, g, Reached(g, rest), f.owner);
      events := [CloseSeen(s, true)] + rest;
    }
  }

  lemma ReadyLeads(f: Fleet, s: Sock) returns (g: Fleet)
    requires Tidy(f) && s in f.answered
    ensures Leads(f, Ready(s), g) && Undisturbed(f, Ready(s))
    ensures Tidy(g) && g.greeting == f.greeting && g.answered == f.answered - {s} && g.owner == f.owner
    ensures g.links == f.links && Forgets(f.current, g.current)
  {
    hide Tidy, Established, Apart;
    TidyIsKnown(f);
    g := Established(f, s);
    ReadyMoves(f, s);
    TidyIsKnown(g);
  }

  lemma ReadyAll(f: Fleet) returns (events: seq<Event>)
    requires Tidy(f) && Known(f) && f.greeting == {}
    ensures Run(f, events) && UndisturbedRun(f, events) && Delivered(f, Reached(f, events), f.owner)
    decreases |f.answered|
  {
    hide Tidy, Leads, Undisturbed, Step, Known;
    if f.answered == {} {
      events := CloseAll(f);
    } else {
      var s :| s in f.answered;
      var g := ReadyLeads(f, s);
      TidyIsKnown(g);
      var rest := ReadyAll(g);
      GoesOnUndisturbed(f, Ready(s), g, rest);
      DeliveredThrough(f, g, Reached(g, rest), f.owner);
      events := [Ready(s)] + rest;
    }
  }

  lemma AdmitLeads(f: Fleet, s: Sock) returns (g: Fleet)
    requires Tidy(f) && s in f.greeting
    ensures Leads(f, Admit(s), g) && Undisturbed(f, Admit(s))
    ensures Tidy(g) && g.greeting == f.greeting - {s} && g.owner == Some(s)
    ensures g.links == f.links && Forgets(f.current, g.current)
  {
    hide Tidy, Accept, Apart;
    TidyIsKnown(f);
    g := Accept(f, s);
    AcceptMoves(f, s);
    TidyIsKnown(g);
  }

  /** Of the hellos on their way, any one can be the last. */
  lemma AdmitAll(f: Fleet, last: Sock) returns (events: seq<Event>)
    requires Tidy(f) && Known(f) && last in f.greeting
    ensures Run(f, events) && UndisturbedRun(f, events) && Delivered(f, Reached(f, events), Some(last))
    decreases |f.greeting|
  {
    hide Tidy, Leads, Undisturbed, Step, Known;
    var s := last;
    if f.greeting != {last} {
      assert f.greeting - {last} != {};
      s :| s in f.greeting - {last};
    }
    var g := AdmitLeads(f, s);
    TidyIsKnown(g);
    var rest;
    if s == last { rest := ReadyAll(g); } else { rest := AdmitAll(g, last); }
    GoesOnUndisturbed(f, Admit(s), g, rest);
    DeliveredThrough(f, g, Reached(g, rest), Some(last));
    events := [Admit(s)] + rest;
  }

  /** Whatever harmless follows, if it settles, exactly one instance stays connected. */
  ghost predicate AlwaysOne(f: Fleet)
    requires Known(f)
  {
    forall events :: Run(f, events) && UndisturbedRun(f, events) && Settled(Reached(f, events)) ==>
                       OneConnected(Reached(f, events))
  }

  lemma {:induction false} ConnectsGrow(f: Fleet, events: seq<Event>)
    requires Known(f) && Run(f, events)
    ensures Reached(f, events).tally.connects >= f.tally.connects
    decreases |events|
  {
    if events != [] { ConnectsGrow(Step(f, events[0]), events[1..]); }
  }

  /** After a connect, once nobody is greeting, somebody holds the lease. */
  lemma OwnerComes(f: Fleet)
    requires Tidy(f) && f.tally.connects > 0 && f.greeting == {}
    ensures f.owner.Some?
  {
  }

  lemma IdleConnectIsSafe(f: Fleet, i: Instance, sock: Sock)
    requires Orderly(f) && sock !in f.links && Idle(f.greeting, f.links, i)
    ensures Known(Begin(f, i, sock)) && AlwaysOne(Begin(f, i, sock))
  {
    ConnectIsOrderly(f, i, sock);
    var g := Begin(f, i, sock);
    forall events | Run(g, events) && UndisturbedRun(g, events) && Settled(Reached(g, events))
      ensures OneConnected(Reached(g, events))
    {
      var t := Reached(g, events);
      RunIsOrderly(g, events);
      ConnectsGrow(g, events);
      OwnerComes(t);
      SettledIsOne(t);
    }
  }

  lemma OverlappingConnectIsNot(f: Fleet, i: Instance, sock: Sock)
    requires Orderly(f) && sock !in f.links && !Idle(f.greeting, f.links, i)
    ensures Known(Begin(f, i, sock)) && !AlwaysOne(Begin(f, i, sock))
  {
    var g := Begin(f, i, sock);
    ConnectMoves(f, i, sock);
    var first :| first in f.greeting && !(first in f.links && f.links[first].instance != i);
    var events := AdmitAll(g, first);
    var t := Reached(g, events);
    assert t.owner == Some(first) && t.links[first].instance == i;
    assert i in t.current ==> t.current[i] == sock;
    assert !OneConnected(t);
  }

  /**
   When a further `connect()` of instance i is safe: exactly when none of its hellos is on its way. Otherwise the
   hellos may arrive the other way round, and in the end the connected socket is one its instance no longer knows.
   */
  lemma ConnectIsSafeExactlyWhenIdle(f: Fleet, i: Instance, sock: Sock)
    requires Orderly(f) && sock !in f.links
    ensures Known(Begin(f, i, sock))
    ensures AlwaysOne(Begin(f, i, sock)) <==> Idle(f.greeting, f.links, i)
  {
    hide AlwaysOne, Idle, Orderly, Begin;
    if Idle(f.greeting, f.links, i) {
      IdleConnectIsSafe(f, i, sock);
    } else {
      OverlappingConnectIsNot(f, i, sock);
    }
  }

  /** Two `connect()` calls of one instance, the second hello accepted first. */
  const CROSSED := [Connect(7, 1), Connect(7, 2), Admit(2), Admit(1), Ready(2), Ready(1), CloseSeen(2, true)]

  const TWO_LINKS: map<Sock, Link> := map[1 := Link(7, false), 2 := Link(7, false)]

  lemma CrossedHellos() returns (g: Fleet, h: Fleet, k: Fleet)
    ensures Leads(NEW_FLEET, CROSSED[0], g) && Leads(g, CROSSED[1], h) && Leads(h, CROSSED[2], k)
    ensures k == Fleet(TWO_LINKS, {1}, {}, {2}, {}, map[7 := 2], {}, [], map[], Some(2), Tally(2, 0, 0, 1, 0))
  {
    g := Step(NEW_FLEET, Connect(7, 1));
    assert g == NEW_FLEET.(links := map[1 := Link(7, false)], greeting := {1}, current := map[7 := 1],
                           tally := Tally(1, 0, 0, 0, 0));
    h := Step(g, Connect(7, 2));
    assert h == NEW_FLEET.(links := TWO_LINKS, greeting := {1, 2}, current := map[7 := 2],
                           tally := Tally(2, 0, 0, 0, 0));
    k := Step(h, Admit(2));
    assert k.greeting == {1} && k.answered == {2};
  }

  lemma CrossedAnswers(k: Fleet) returns (l: Fleet, m: Fleet, n: Fleet, t: Fleet)
    requires k == Fleet(TWO_LINKS, {1}, {}, {2}, {}, map[7 := 2], {}, [], map[], Some(2), Tally(2, 0, 0, 1, 0))
    ensures Leads(k, CROSSED[3], l) && Leads(l, CROSSED[4], m) && Leads(m, CROSSED[5], n) && Leads(n, CROSSED[6], t)
    ensures t == Fleet(TWO_LINKS, {}, {}, {}, {1}, map[], {}, [], map[], Some(1), Tally(2, 0, 0, 2, 1))
  {
    l := Step(k, Admit(1));
    assert l == k.(greeting := {}, answered := {1, 2}, closing := map[2 := true], owner := Some(1),
                   tally := Tally(2, 0, 0, 2, 1));
    m := Step(l, Ready(2));
    assert m == l.(answered := {1}, up := {2});
    n := Step(m, Ready(1));
    assert n == m.(answered := {}, up := {1, 2});
    t := Step(n, CloseSeen(2, true));
    assert t.up == {1} && t.closing == map[] && t.current == map[];
  }

  /** No loss and no failure, yet the connected socket is one its instance has forgotten: it stays open, unused. */
  lemma OverlappingConnectsLoseTheInstance()
    ensures Run(NEW_FLEET, CROSSED)
    ensures var t := Reached(NEW_FLEET, CROSSED);
      Settled(t) && t.tally.drops == 0 && t.owner == Some(1) && t.up == {1} && t.current == map[]
  {
    hide Leads, Step;
    var g, h, k := CrossedHellos();
    var l, m, n, t := CrossedAnswers(k);
    LeadsIsKnown(n, CROSSED[6], t);
    RunGoesOn(n, CROSSED[6], t, []);
    RunGoesOn(m, CROSSED[5], n, CROSSED[6..]);
    RunGoesOn(l, CROSSED[4], m, CROSSED[5..]);
    RunGoesOn(k, CROSSED[3], l, CROSSED[4..]);
    RunGoesOn(h, CROSSED[2], k, CROSSED[3..]);
    RunGoesOn(g, CROSSED[1], h, CROSSED[2..]);
    RunGoesOn(NEW_FLEET, CROSSED[0], g, CROSSED[1..]);
  }

  lemma LeadsIsKnown(f: Fleet, e: Event, g: Fleet)
    requires Leads(f, e, g)
    ensures Known(g)
  {
  }
}

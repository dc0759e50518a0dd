/** The life of one backend SDK instance: when it connects, retries, stands down, and what its caller can rely on. */
module Lifecycle {
  import opened Basics
  import Slot

  type Socket = nat

  datatype FailureCode =
    AuthFailed | GatewayRejected | GatewayUnreachable | HandshakeTimeout | ProtocolFailure | Replaced

  datatype Phase = Idle | Connecting | Connected | Stopped

  /**
   `firsts` counts the `connect()` calls whose attempt is under way, `retries` the attempts made by a retry loop,
   `timers` the retries that wait for their turn. `socket` is the SDK's socket field: set when an attempt has dialled,
   kept while the connection is up. `up` is the connection that was made last and is still open. `failure` is
   `lastError`, `attempts` the backoff counter, `closed` whether the user closed it.
   */
  datatype Sdk = Sdk(phase: Phase, socket: Option<Socket>, failure: Option<FailureCode>, closed: bool,
                     attempts: nat, timers: nat, firsts: nat, retries: nat, up: Option<Socket>)

  const NEW_SDK := Sdk(Idle, None, None, false, 0, 0, 0, 0, None)

  /**
   What differs: whether drops are retried, and which SDK it is. The Python one has `start()`, refuses `connect()` while
   its socket field is set or a retry loop runs, and cancels a pending retry in `close()`; the TypeScript one does none
   of this.
   */
  datatype Rules = Rules(reconnect: bool, python: bool)

  /** `connect()` starts over: not closed, no old failure. */
  function Begin(d: Sdk): Sdk { d.(closed := false, failure := None, phase := Connecting, firsts := d.firsts + 1) }

  /** `start()`: its first attempt is retried like any other. */
  function BeginLoop(d: Sdk): Sdk {
    d.(closed := false, failure := None, phase := Connecting, retries := d.retries + 1)
  }

  /** One attempt less under way. */
  function Finish(d: Sdk, scheduled: bool): Sdk
    requires UnderWay(d, scheduled)
  {
    if scheduled then d.(retries := d.retries - 1) else d.(firsts := d.firsts - 1)
  }

  predicate UnderWay(d: Sdk, scheduled: bool) { if scheduled then d.retries > 0 else d.firsts > 0 }

  function Succeed(d: Sdk, socket: Socket, scheduled: bool): Sdk
    requires UnderWay(d, scheduled)
  {
    Finish(d, scheduled).(socket := Some(socket), up := Some(socket), attempts := 0, failure := None,
                          phase := Connected)
  }

  function Record(d: Sdk, code: FailureCode): Sdk { if d.closed then d else d.(failure := Some(code)) }

  function Schedule(d: Sdk): Sdk { d.(attempts := d.attempts + 1, timers := d.timers + 1) }

  /** A failed attempt; only one made by a retry loop schedules another. */
  function Fail(d: Sdk, code: FailureCode, scheduled: bool): Sdk
    requires UnderWay(d, scheduled)
  {
    var recorded := Record(Finish(d, scheduled).(socket := None), code);
    if scheduled then Schedule(recorded) else recorded
  }

  function Fire(d: Sdk): Sdk
    requires d.timers > 0
  {
    var fired := d.(timers := d.timers - 1);
    if d.closed then fired else fired.(phase := Connecting, retries := d.retries + 1)
  }

  /** A close on a socket that is no longer the current one changes nothing. */
  function OnClose(d: Sdk, socket: Socket, code: nat, reconnect: bool): Sdk {
    if d.socket != Some(socket) then d
    else
      var down := d.(socket := None, up := None);
      if code == Slot.CLOSE_REPLACED && !d.closed then down.(failure := Some(Replaced), phase := Stopped)
      else if d.closed || !reconnect then down.(phase := Stopped)
      else Schedule(down.(phase := Connecting))
  }

  /** `close()`; `cancels`: a pending retry goes too. */
  function Shut(d: Sdk, cancels: bool): Sdk {
    d.(closed := true, phase := Stopped, socket := None, up := None, timers := if cancels then 0 else d.timers)
  }

  /** `DoRefused`: the cached token was refused, and the attempt goes on with a new one. */
  datatype Event =
    | DoConnect
    | DoStart
    | DoDial(socket: Socket)
    | DoRefused
    | DoSucceed(socket: Socket, scheduled: bool)
    | DoFail(code: FailureCode, scheduled: bool)
    | DoFire
    | DoClosed(socket: Socket, status: nat)
    | DoShut

  /** Nothing of an earlier call is left: no connection, no attempt, and no retry pending. */
  predicate AtRest(d: Sdk) { d.firsts == 0 && d.retries == 0 && d.timers == 0 && d.up.None? }

  /** What the Python SDK checks: a first attempt that has not dialled yet passes. */
  predicate Accepts(d: Sdk) { d.socket.None? && d.timers == 0 && d.retries == 0 }

  predicate Enabled(d: Sdk, e: Event, rules: Rules) {
    match e
    case DoConnect => rules.python ==> Accepts(d)
    case DoStart => rules.python && Accepts(d)
    case DoDial(_) => d.firsts + d.retries > 0
    case DoRefused => d.firsts + d.retries > 0 && d.up.None?
    case DoSucceed(socket, scheduled) => UnderWay(d, scheduled) && d.socket == Some(socket)
    case DoFail(code, scheduled) => UnderWay(d, scheduled) && code != Replaced
    case DoFire => d.timers > 0
    case DoClosed(socket, _) => d.socket == Some(socket) ==> d.up == Some(socket)
    case DoShut => d.firsts + d.retries == 0
  }

  function Step(d: Sdk, e: Event, rules: Rules): Sdk
    requires Enabled(d, e, rules)
  {
    match e
    case DoConnect => Begin(d)
    case DoStart => BeginLoop(d)
    case DoDial(socket) => d.(socket := Some(socket))
    case DoRefused => d.(socket := None)
    case DoSucceed(socket, scheduled) => Succeed(d, socket, scheduled)
    case DoFail(code, scheduled) => Fail(d, code, scheduled)
    case DoFire => Fire(d)
    case DoClosed(socket, status) => OnClose(d, socket, status, rules.reconnect)
    case DoShut => Shut(d, rules.python)
  }

  predicate Run(d: Sdk, events: seq<Event>, rules: Rules)
    decreases |events|
  {
    events == [] || (Enabled(d, events[0], rules) && Run(Step(d, events[0], rules), events[1..], rules))
  }

  function Reached(d: Sdk, events: seq<Event>, rules: Rules): Sdk
    requires Run(d, events, rules)
    decreases |events|
  {
    if events == [] then d else Reached(Step(d, events[0], rules), events[1..], rules)
  }

  predicate Begins(e: Event) { e.DoConnect? || e.DoStart? }

  /** Every `connect()` and `start()` of the run finds the instance at rest. */
  predicate Careful(d: Sdk, events: seq<Event>, rules: Rules)
    requires Run(d, events, rules)
    decreases |events|
  {
    events == [] || ((Begins(events[0]) ==> AtRest(d)) && Careful(Step(d, events[0], rules), events[1..], rules))
  }

  /** One life: connected, or connecting, or waiting to, or none of them - and then nothing will connect by itself. */
  predicate OneLife(d: Sdk) {
    && (d.up.Some? <==> d.phase == Connected) && (d.up.Some? ==> d.socket == d.up)
    && (d.socket.Some? ==> d.up.Some? || d.firsts + d.retries > 0)
    && d.timers + d.firsts + d.retries + (if d.up.Some? then 1 else 0) <= 1
    && (d.phase == Connected ==> d.failure.None? && !d.closed && d.attempts == 0)
    && (d.firsts + d.retries > 0 ==> d.phase == Connecting && !d.closed)
    && (d.closed ==> d.phase == Stopped)
    && (d.failure == Some(Replaced) ==> d.phase == Stopped && d.timers == 0)
  }

  lemma StepKeepsOneLife(d: Sdk, e: Event, rules: Rules)
    requires OneLife(d) && Enabled(d, e, rules)
    ensures OneLife(Step(d, e, rules)) <==> (Begins(e) ==> AtRest(d))
  {
  }

  /**
   As long as each `connect()` and `start()` finds the instance at rest, there is at most one life at any time, and a
   connected instance shows no error.
   */
  lemma {:induction false} EveryRunHasOneLife(events: seq<Event>, rules: Rules, d: Sdk)
    requires OneLife(d) && Run(d, events, rules) && Careful(d, events, rules)
    ensures OneLife(Reached(d, events, rules))
    decreases |events|
  {
    if events != [] {
      StepKeepsOneLife(d, events[0], rules);
      EveryRunHasOneLife(events[1..], rules, Step(d, events[0], rules));
    }
  }

  predicate OneLifeThroughout(d: Sdk, events: seq<Event>, rules: Rules)
    requires Run(d, events, rules)
    decreases |events|
  {
    OneLife(d) && (events == [] || OneLifeThroughout(Step(d, events[0], rules), events[1..], rules))
  }

  lemma {:induction false} CarefulIsOneLife(d: Sdk, events: seq<Event>, rules: Rules)
    requires OneLife(d) && Run(d, events, rules)
    ensures Careful(d, events, rules) <==> OneLifeThroughout(d, events, rules)
    decreases |events|
  {
    if events != [] {
      var t := Step(d, events[0], rules);
      StepKeepsOneLife(d, events[0], rules);
      if OneLife(t) { CarefulIsOneLife(t, events[1..], rules); }
    }
  }

  // ---- What the caller can know --------------------------------------------

  /**
   What the caller has seen: its `connect()` calls that have not settled, the connection that is up, whether the
   instance is retrying by itself, and whether it was ever closed while it did.
   */
  datatype Seen = Seen(calls: nat, up: Option<Socket>, retrying: bool, haunted: bool)

  const NOTHING_SEEN := Seen(0, None, false, false)

  function Settled(v: Seen): Seen { v.(calls := if v.calls > 0 then v.calls - 1 else 0) }

  function Look(v: Seen, e: Event, rules: Rules): Seen {
    match e
    case DoConnect => v.(calls := v.calls + 1)
    case DoStart => v.(retrying := true)
    case DoSucceed(socket, scheduled) =>
      if scheduled then v.(up := Some(socket), retrying := false) else Settled(v).(up := Some(socket))
    case DoFail(_, scheduled) => if scheduled then v else Settled(v)
    case DoClosed(socket, status) =>
      if v.up != Some(socket) then v else v.(up := None, retrying := status != 4001 && rules.reconnect)
    case DoShut => v.(up := None, retrying := false, haunted := v.haunted || (v.retrying && !rules.python))
    case _ => v
  }

  /**
   When a caller may begin: none of its calls is unsettled; and in TypeScript, which checks nothing, nothing is up, the
   instance is not retrying, and it was never closed while it did.
   */
  predicate MayBegin(v: Seen, rules: Rules) {
    v.calls == 0 && (rules.python || (v.up.None? && !v.retrying && !v.haunted))
  }

  /** Everything but a retry that fires after `close()`, which does nothing. */
  function Visible(d: Sdk, events: seq<Event>, rules: Rules): seq<Event>
    requires Run(d, events, rules)
    decreases |events|
  {
    if events == [] then []
    else (if events[0].DoFire? && d.closed then [] else [events[0]])
         + Visible(Step(d, events[0], rules), events[1..], rules)
  }

  predicate Cautious(v: Seen, seen: seq<Event>, rules: Rules)
    decreases |seen|
  {
    seen == [] || ((Begins(seen[0]) ==> MayBegin(v, rules)) && Cautious(Look(v, seen[0], rules), seen[1..], rules))
  }

  /** What the caller has seen fits the instance. */
  predicate Fits(v: Seen, d: Sdk, rules: Rules) {
    && v.calls == d.firsts && v.up == d.up
    && (v.retrying <==> !d.closed && d.timers + d.retries > 0)
    && (d.closed && d.timers > 0 ==> v.haunted)
    && (rules.python ==> !v.haunted)
  }

  lemma LookFits(v: Seen, d: Sdk, e: Event, rules: Rules)
    requires OneLife(d) && Fits(v, d, rules) && Enabled(d, e, rules) && (Begins(e) ==> AtRest(d))
    ensures Fits(if e.DoFire? && d.closed then v else Look(v, e, rules), Step(d, e, rules), rules)
  {
  }

  lemma MayBeginAtRest(v: Seen, d: Sdk, e: Event, rules: Rules)
    requires OneLife(d) && Fits(v, d, rules) && Begins(e) && Enabled(d, e, rules) && MayBegin(v, rules)
    ensures AtRest(d)
  {
  }

  lemma VisibleMoves(d: Sdk, events: seq<Event>, rules: Rules)
    requires Run(d, events, rules) && events != []
    ensures var rest := Visible(Step(d, events[0], rules), events[1..], rules);
      Visible(d, events, rules) == if events[0].DoFire? && d.closed then rest else [events[0]] + rest
  {
    hide Step;
  }

  lemma {:induction false} CautiousIsCareful(v: Seen, d: Sdk, events: seq<Event>, rules: Rules)
    requires OneLife(d) && Fits(v, d, rules) && Run(d, events, rules) && Cautious(v, Visible(d, events, rules), rules)
    ensures Careful(d, events, rules)
    decreases |events|
  {
    if events != [] {
      var e := events[0];
      VisibleMoves(d, events, rules);
      if Begins(e) { MayBeginAtRest(v, d, e, rules); }
      StepKeepsOneLife(d, e, rules);
      LookFits(v, d, e, rules);
      hide Step, Enabled, OneLife, Fits, AtRest;
      CautiousIsCareful(if e.DoFire? && d.closed then v else Look(v, e, rules), Step(d, e, rules), events[1..], rules);
    }
  }

  /** One more retry that never fires changes nothing that can be seen. */
  lemma {:induction false} OneMoreRetry(d: Sdk, events: seq<Event>, rules: Rules)
    requires !rules.python && Run(d, events, rules)
    ensures var t := d.(timers := d.timers + 1);
      Run(t, events, rules) && Visible(t, events, rules) == Visible(d, events, rules)
    decreases |events|
  {
    if events != [] {
      var t := d.(timers := d.timers + 1);
      var g := Step(d, events[0], rules);
      assert Enabled(t, events[0], rules) && Step(t, events[0], rules) == g.(timers := g.timers + 1);
      OneMoreRetry(g, events[1..], rules);
    }
  }

  /** d, or d with the retry that was pending at `close()` still to come. */
  predicate Alike(v: Seen, d: Sdk, t: Sdk, rules: Rules) {
    && (t == d || (v.haunted && d.closed && d.timers == 0 && t == d.(timers := 1)))
    && (v.haunted ==> d.closed && t.timers == 1)
  }

  lemma AlikeMoves(v: Seen, d: Sdk, t: Sdk, e: Event, rules: Rules)
    requires OneLife(d) && Fits(v, d, rules) && Alike(v, d, t, rules) && Enabled(d, e, rules)
    requires Begins(e) ==> MayBegin(v, rules)
    ensures e.DoFire? && d.closed ==> Alike(v, Step(d, e, rules), t, rules)
    ensures !(e.DoFire? && d.closed) ==>
              Enabled(t, e, rules) && t.closed == d.closed
              && Alike(Look(v, e, rules), Step(d, e, rules), Step(t, e, rules), rules)
  {
  }

  lemma NotAtRest(v: Seen, d: Sdk, t: Sdk, rules: Rules)
    requires OneLife(d) && Fits(v, d, rules) && Alike(v, d, t, rules) && !MayBegin(v, rules)
    ensures !AtRest(t)
  {
  }

  /** A caller that was not cautious cannot exclude a run that breaks. */
  lemma {:induction false} Unlucky(v: Seen, d: Sdk, t: Sdk, events: seq<Event>, rules: Rules)
    returns (other: seq<Event>)
    requires OneLife(d) && Fits(v, d, rules) && Alike(v, d, t, rules)
    requires Run(d, events, rules) && !Cautious(v, Visible(d, events, rules), rules)
    ensures Run(t, other, rules) && Visible(t, other, rules) == Visible(d, events, rules) && !Careful(t, other, rules)
    decreases |events|
  {
    var e, rest := events[0], events[1..];
    VisibleMoves(d, events, rules);
    if Begins(e) && !MayBegin(v, rules) {
      NotAtRest(v, d, t, rules);
      if t != d { OneMoreRetry(d, events, rules); }
      other := events;
    } else {
      if Begins(e) { MayBeginAtRest(v, d, e, rules); }
      StepKeepsOneLife(d, e, rules);
      LookFits(v, d, e, rules);
      AlikeMoves(v, d, t, e, rules);
      hide Step, Enabled, OneLife, Fits, AtRest, Alike;
      if e.DoFire? && d.closed {
        other := Unlucky(v, Step(d, e, rules), t, rest, rules);
      } else {
        var later := Unlucky(Look(v, e, rules), Step(d, e, rules), Step(t, e, rules), rest, rules);
        other := [e] + later;
        assert other[1..] == later;
        VisibleMoves(t, other, rules);
      }
    }
  }

  /** Every run the caller cannot tell from this one keeps to one life. */
  ghost predicate SafeForCaller(events: seq<Event>, rules: Rules)
    requires Run(NEW_SDK, events, rules)
  {
    forall other :: Run(NEW_SDK, other, rules) && Visible(NEW_SDK, other, rules) == Visible(NEW_SDK, events, rules) ==>
                      OneLifeThroughout(NEW_SDK, other, rules)
  }

  /**
   What a caller has seen guarantees one life exactly if it was cautious: each `connect()` and `start()` with none of
   its calls unsettled, and in TypeScript with nothing up, no retrying, and no earlier `close()` during retrying.
   */
  lemma CallersKeepOneLifeExactlyWhenCautious(events: seq<Event>, rules: Rules)
    requires Run(NEW_SDK, events, rules)
    ensures SafeForCaller(events, rules) <==> Cautious(NOTHING_SEEN, Visible(NEW_SDK, events, rules), rules)
  {
    hide Visible, Cautious, OneLifeThroughout, Careful, Run;
    if Cautious(NOTHING_SEEN, Visible(NEW_SDK, events, rules), rules) {
      forall other | Run(NEW_SDK, other, rules) && Visible(NEW_SDK, other, rules) == Visible(NEW_SDK, events, rules)
        ensures OneLifeThroughout(NEW_SDK, other, rules)
      {
        CautiousIsCareful(NOTHING_SEEN, NEW_SDK, other, rules);
        CarefulIsOneLife(NEW_SDK, other, rules);
      }
    } else {
      var other := Unlucky(NOTHING_SEEN, NEW_SDK, NEW_SDK, events, rules);
      CarefulIsOneLife(NEW_SDK, other, rules);
    }
  }

  // ---- Two runs that break -------------------------------------------------

  const TYPESCRIPT := Rules(true, false)

  const PYTHON := Rules(true, true)

  /** In Python two overlapping first calls both pass the check, as the first has not dialled yet. */
  lemma OverlappingConnectsBreakOneLife()
    ensures Run(NEW_SDK, [DoConnect, DoConnect], PYTHON)
    ensures var d := Reached(NEW_SDK, [DoConnect, DoConnect], PYTHON); d.firsts == 2 && !OneLife(d)
  {
    var d := Begin(NEW_SDK);
    assert [DoConnect, DoConnect][1..] == [DoConnect];
    assert [DoConnect][1..] == [];
    assert Run(Begin(d), [], PYTHON) && Run(d, [DoConnect], PYTHON);
  }

  /** Dropped, closed while the retry is pending, connected again - and then the old retry fires. */
  const REVIVED := [DoConnect, DoDial(1), DoSucceed(1, false), DoClosed(1, 1006), DoShut,
                    DoConnect, DoDial(2), DoSucceed(2, false), DoFire]

  /** e leads from d to g. */
  predicate Leads(d: Sdk, e: Event, g: Sdk, rules: Rules) { Enabled(d, e, rules) && g == Step(d, e, rules) }

  lemma StepsOn(d: Sdk, e: Event, g: Sdk, rest: seq<Event>, rules: Rules)
    requires Leads(d, e, g, rules) && Run(g, rest, rules)
    ensures Run(d, [e] + rest, rules) && Reached(d, [e] + rest, rules) == Reached(g, rest, rules)
    ensures !OneLife(d) || !OneLifeThroughout(g, rest, rules) ==> !OneLifeThroughout(d, [e] + rest, rules)
  {
    hide Step;
    assert ([e] + rest)[1..] == rest;
  }

  lemma ConnectsOnce(d: Sdk, s: Socket) returns (d1: Sdk, d2: Sdk, d3: Sdk)
    requires d.firsts == 0 && d.retries == 0
    ensures Leads(d, DoConnect, d1, TYPESCRIPT) && Leads(d1, DoDial(s), d2, TYPESCRIPT)
    ensures Leads(d2, DoSucceed(s, false), d3, TYPESCRIPT)
    ensures d3 == Sdk(Connected, Some(s), None, false, 0, d.timers, 0, 0, Some(s))
  {
    d1 := Begin(d);
    d2 := d1.(socket := Some(s));
    d3 := Succeed(d2, s, false);
  }

  /** Dropped, and closed with the retry pending. */
  lemma ClosedWhileRetrying(d: Sdk) returns (d4: Sdk, d5: Sdk)
    requires d == Sdk(Connected, Some(1), None, false, 0, 0, 0, 0, Some(1))
    ensures Leads(d, DoClosed(1, 1006), d4, TYPESCRIPT) && Leads(d4, DoShut, d5, TYPESCRIPT)
    ensures d5 == Sdk(Stopped, None, None, true, 1, 1, 0, 0, None)
  {
    d4 := OnClose(d, 1, 1006, true);
    d5 := Shut(d4, false);
  }

  lemma OldRetryFires(d: Sdk) returns (d9: Sdk)
    requires d == Sdk(Connected, Some(2), None, false, 0, 1, 0, 0, Some(2))
    ensures Leads(d, DoFire, d9, TYPESCRIPT) && d9.up == Some(2) && d9.retries == 1 && !OneLife(d)
  {
    d9 := Fire(d);
  }

  lemma StandsStill(d: Sdk, rules: Rules)
    ensures Run(d, [], rules) && Reached(d, [], rules) == d
  {
  }

  /** In TypeScript `close()` leaves a pending retry, which attacks the next connection: one up and one under way. */
  lemma PendingRetryBreaksOneLife()
    ensures Run(NEW_SDK, REVIVED, TYPESCRIPT) && !OneLifeThroughout(NEW_SDK, REVIVED, TYPESCRIPT)
    ensures var d := Reached(NEW_SDK, REVIVED, TYPESCRIPT); d.up == Some(2) && d.retries == 1
  {
    hide *;
    var r := TYPESCRIPT;
    NewIsAtRest();
    var d1, d2, d3 := ConnectsOnce(NEW_SDK, 1);
    var d4, d5 := ClosedWhileRetrying(d3);
    var d6, d7, d8 := ConnectsOnce(d5, 2);
    var d9 := OldRetryFires(d8);
    StandsStill(d9, r);
    var e8 := [DoFire] + [];
    var e7 := [DoSucceed(2, false)] + e8;
    var e6 := [DoDial(2)] + e7;
    var e5 := [DoConnect] + e6;
    var e4 := [DoShut] + e5;
    var e3 := [DoClosed(1, 1006)] + e4;
    var e2 := [DoSucceed(1, false)] + e3;
    var e1 := [DoDial(1)] + e2;
    StepsOn(d8, DoFire, d9, [], r);
    StepsOn(d7, DoSucceed(2, false), d8, e8, r);
    StepsOn(d6, DoDial(2), d7, e7, r);
    StepsOn(d5, DoConnect, d6, e6, r);
    StepsOn(d4, DoShut, d5, e5, r);
    StepsOn(d3, DoClosed(1, 1006), d4, e4, r);
    StepsOn(d2, DoSucceed(1, false), d3, e3, r);
    StepsOn(d1, DoDial(1), d2, e2, r);
    StepsOn(NEW_SDK, DoConnect, d1, e1, r);
    RevivedIs();
  }

  lemma NewIsAtRest()
    ensures NEW_SDK.firsts == 0 && NEW_SDK.retries == 0 && NEW_SDK.timers == 0
  {
  }

  lemma RevivedIs()
    ensures REVIVED == [DoConnect] + ([DoDial(1)] + ([DoSucceed(1, false)] + ([DoClosed(1, 1006)] + ([DoShut] +
                         ([DoConnect] + ([DoDial(2)] + ([DoSucceed(2, false)] + ([DoFire] + []))))))))
  {
  }

  /** A replaced instance is down for good: no retry is pending, and only `connect()` or `start()` starts it again. */
  lemma {:induction false} ReplacedStaysDown(d: Sdk, events: seq<Event>, rules: Rules)
    requires OneLife(d) && d.failure == Some(Replaced) && Run(d, events, rules)
    requires DoConnect !in events && DoStart !in events
    ensures var t := Reached(d, events, rules);
      t.phase == Stopped && t.timers == 0 && t.firsts + t.retries == 0 && t.failure == Some(Replaced)
    decreases |events|
  {
    if events != [] {
      assert events[0] in events;
      StepKeepsOneLife(d, events[0], rules);
      ReplacedStaysDown(Step(d, events[0], rules), events[1..], rules);
    }
  }

  /** What somebody who saw the events alone would report: the connection that is up, and the last error. */
  datatype Report = Report(up: Option<Socket>, failure: Option<FailureCode>)

  /**
   Connecting and success clear the error, a failed attempt sets it, and a close with 4001 on the connection that is up
   sets it to replaced; a plain drop and `close()` keep it.
   */
  function Tell(r: Report, e: Event): Report {
    match e
    case DoConnect => r.(failure := None)
    case DoStart => r.(failure := None)
    case DoSucceed(socket, _) => Report(Some(socket), None)
    case DoFail(code, _) => Report(None, Some(code))
    case DoClosed(socket, status) =>
      if r.up != Some(socket) then r
      else Report(None, if status == 4001 then Some(Replaced) else r.failure)
    case DoShut => r.(up := None)
    case _ => r
  }

  function Told(r: Report, events: seq<Event>): Report
    decreases |events|
  {
    if events == [] then r else Told(Tell(r, events[0]), events[1..])
  }

  function ReportOf(d: Sdk): Report { Report(d.up, d.failure) }

  /** Over every run that keeps to one life, `lastError` and the connection are exactly what the events tell. */
  lemma {:induction false} LastErrorFollowsAttempts(d: Sdk, events: seq<Event>, rules: Rules)
    requires OneLife(d) && Run(d, events, rules) && Careful(d, events, rules)
    ensures ReportOf(Reached(d, events, rules)) == Told(ReportOf(d), events)
    decreases |events|
  {
    if events != [] {
      var t := Step(d, events[0], rules);
      StepKeepsOneLife(d, events[0], rules);
      assert ReportOf(t) == Tell(ReportOf(d), events[0]);
      hide Step, OneLife, Tell, ReportOf;
      LastErrorFollowsAttempts(t, events[1..], rules);
    }
  }
}

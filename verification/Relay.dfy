/**
 One direction of a wired channel: frames wait in the sender's socket until both legs are there, are relayed one
 by one with their text/binary flag, and are slowed down by a byte bucket and by the receiver's send buffer, which
 share one pause flag.
 */
module Relay {
  import opened Basics

  datatype Frame = Frame(binary: bool, data: seq<bv8>)

  datatype Bucket = Bucket(used: nat, resetAt: int)

  const WINDOW := 1000

  /** A receiver is congested with more bytes than this in its send buffer, and drained with a quarter of it at most. */
  const HIGH_WATER := 4 * 1024 * 1024

  /** What a window lets go of when it ends. */
  function Forgiven(b: Bucket, limit: nat): nat { if b.used < limit then b.used else limit }

  function Charge(b: Bucket, limit: nat, size: nat, now: int): Bucket {
    if now >= b.resetAt then Bucket(b.used - Forgiven(b, limit) + size, now + WINDOW)
    else b.(used := b.used + size)
  }

  /** A bucket with its history: the first charge, the bytes forgiven, and the resets after the first. */
  datatype Meter = Meter(bucket: Bucket, first: Option<int>, forgiven: nat, resets: nat)

  function Count(m: Meter, limit: nat, size: nat, now: int): Meter {
    var over := now >= m.bucket.resetAt;
    Meter(Charge(m.bucket, limit, size, now),
          if m.first.None? then Some(now) else m.first,
          if over then m.forgiven + Forgiven(m.bucket, limit) else m.forgiven,
          if over && m.first.Some? then m.resets + 1 else m.resets)
  }

  /**
   `waiting` is what the sender's socket holds, `open` whether the receiver still takes frames, `resumes` the due
   times of the running rate timers, earliest first, `drains` the number of running drain timers. The rest is
   history: what was sent in, what went out, and the clock.
   */
  datatype Flow = Flow(
    limit: nat, waiting: seq<Frame>, wired: bool, open: bool, paused: bool, meter: Meter,
    resumes: seq<int>, drains: nat, sent: seq<Frame>, out: seq<Frame>, clock: int)

  function Start(limit: nat, now: int): Flow {
    Flow(limit, [], false, true, true, Meter(Bucket(0, 0), None, 0, 0), [], 0, [], [], now)
  }

  datatype Event =
    | Arrives(frame: Frame)
    | Wires
    | Delivers(now: int, congested: bool)
    | RateTimer(now: int)
    | DrainTimer(clear: bool, now: int)
    | ReceiverGone

  /** A timer never fires early, and a paused socket delivers nothing. */
  predicate Enabled(f: Flow, e: Event) {
    match e
    case Delivers(now, _) => f.wired && !f.paused && f.waiting != [] && f.clock <= now
    case RateTimer(now) => f.resumes != [] && f.resumes[0] <= now && f.clock <= now
    case DrainTimer(_, now) => f.drains > 0 && f.clock <= now
    case Wires => !f.wired
    case _ => true
  }

  function Deliver(f: Flow, now: int, congested: bool): Flow
    requires f.waiting != []
  {
    var frame, taken := f.waiting[0], f.(waiting := f.waiting[1..], clock := now);
    if !f.open then taken
    else
      var sent := taken.(out := f.out + [frame]);
      var paced := if f.limit > 0 then Pace(sent, |frame.data|, now) else sent;
      if congested then paced.(paused := true, drains := paced.drains + 1) else paced
  }

  function Pace(f: Flow, size: nat, now: int): Flow {
    var meter := Count(f.meter, f.limit, size, now);
    if meter.bucket.used > f.limit
    then f.(meter := meter, paused := true, resumes := f.resumes + [meter.bucket.resetAt])
    else f.(meter := meter)
  }

  function Step(f: Flow, e: Event): Flow
    requires Enabled(f, e)
  {
    match e
    case Arrives(frame) => f.(waiting := f.waiting + [frame], sent := f.sent + [frame])
    case Wires => f.(wired := true, paused := false)
    case Delivers(now, congested) => Deliver(f, now, congested)
    case RateTimer(now) => f.(resumes := f.resumes[1..], paused := false, clock := now)
    case DrainTimer(clear, now) =>
      if clear then f.(drains := f.drains - 1, paused := false, clock := now) else f.(clock := now)
    case ReceiverGone => f.(open := false)
  }

  predicate Run(f: Flow, events: seq<Event>)
    decreases |events|
  {
    events == [] || (Enabled(f, events[0]) && Run(Step(f, events[0]), events[1..]))
  }

  function Reached(f: Flow, events: seq<Event>): Flow
    requires Run(f, events)
    decreases |events|
  {
    if events == [] then f else Reached(Step(f, events[0]), events[1..])
  }

  function Bytes(frames: seq<Frame>): nat {
    if frames == [] then 0 else Bytes(frames[..|frames| - 1]) + |frames[|frames| - 1].data|
  }

  lemma BytesOfMore(frames: seq<Frame>, frame: Frame)
    ensures Bytes(frames + [frame]) == Bytes(frames) + |frame.data|
  {
    assert (frames + [frame])[..|frames|] == frames;
  }

  // ---- What every run keeps ------------------------------------------------

  /** Nothing is lost, reordered or altered, and the bucket accounts for every byte relayed. */
  predicate Faithful(f: Flow) {
    && f.out <= f.sent
    && (f.open ==> f.sent == f.out + f.waiting)
    && (!f.wired ==> f.out == [] && f.paused && f.resumes == [] && f.drains == 0)
    && (f.limit > 0 ==> Bytes(f.out) == f.meter.bucket.used + f.meter.forgiven)
  }

  lemma DeliveryIsFaithful(f: Flow, now: int, congested: bool)
    requires Faithful(f) && Enabled(f, Delivers(now, congested))
    ensures Faithful(Deliver(f, now, congested))
  {
    hide Bytes, Count;
    var frame, t := f.waiting[0], Deliver(f, now, congested);
    if f.open {
      BytesOfMore(f.out, frame);
      assert f.out + f.waiting == f.out + [frame] + f.waiting[1..];
      assert f.limit > 0 ==> t.meter == Count(f.meter, f.limit, |frame.data|, now);
      CountConserves(f.meter, f.limit, |frame.data|, now);
    } else {
    }
  }

  lemma CountConserves(m: Meter, limit: nat, size: nat, now: int)
    ensures Count(m, limit, size, now).bucket.used + Count(m, limit, size, now).forgiven == m.bucket.used + m.forgiven
            + size
  {
  }

  lemma StepIsFaithful(f: Flow, e: Event)
    requires Faithful(f) && Enabled(f, e)
    ensures Faithful(Step(f, e))
  {
    hide Bytes, Deliver;
    if e.Delivers? {
      DeliveryIsFaithful(f, e.now, e.congested);
    } else if e.Arrives? {
      assert f.open ==> f.out + f.waiting + [e.frame] == f.out + (f.waiting + [e.frame]);
    }
  }

  /**
   Whatever the timers do: what went out is a prefix of what was sent, flags kept, frames from before the pairing
   included; while the receiver is there the rest is still waiting; and every relayed byte is either in the
   bucket or was forgiven by a window reset.
   */
  lemma {:induction false} RelayIsFaithful(f: Flow, events: seq<Event>)
    requires Faithful(f) && Run(f, events)
    ensures Faithful(Reached(f, events))
    decreases |events|
  {
    if events != [] {
      StepIsFaithful(f, events[0]);
      RelayIsFaithful(Step(f, events[0]), events[1..]);
    }
  }

  // ---- The rate ------------------------------------------------------------

  /** The time of a timer event. */
  function When(e: Event): int
    requires e.RateTimer? || e.DrainTimer?
  {
    match e
    case RateTimer(now) => now
    case DrainTimer(_, now) => now
  }

  /** The event ends the pause of a sender that is over its limit in a window that is not over. */
  predicate LiftsEarly(f: Flow, e: Event)
    requires Enabled(f, e)
  {
    && (e.RateTimer? || e.DrainTimer?)
    && f.meter.bucket.used > f.limit && When(e) < f.meter.bucket.resetAt
    && f.paused && !Step(f, e).paused
  }

  /** No frame is larger than `largest`, and rate pauses last until their window ends. */
  predicate PacedRun(f: Flow, events: seq<Event>, largest: nat)
    requires Run(f, events)
    decreases |events|
  {
    events == [] || ((events[0].Arrives? ==> |events[0].frame.data| <= largest) && !LiftsEarly(f, events[0])
                     && PacedRun(Step(f, events[0]), events[1..], largest))
  }

  /** Never more than one frame over the limit, and each reset came a full window after the one before. */
  predicate Metered(m: Meter, limit: nat, clock: int, largest: nat) {
    && m.bucket.used <= limit + largest
    && m.forgiven <= limit * m.resets
    && (m.first.None? ==> m.bucket == Bucket(0, 0) && m.forgiven == 0 && m.resets == 0)
    && (m.first.Some? ==> m.first.value + WINDOW * (m.resets + 1) <= m.bucket.resetAt <= clock + WINDOW)
  }

  /** A sender over its limit is paused until the window ends. */
  predicate Throttled(f: Flow) {
    && (!f.wired ==> f.meter.bucket.used == 0)
    && (f.wired && !f.paused && f.meter.bucket.used > f.limit ==> f.meter.bucket.resetAt <= f.clock)
  }

  predicate Bounded(f: Flow, largest: nat) {
    && 0 < f.limit && largest <= f.limit && 0 <= f.clock
    && (forall frame :: frame in f.waiting ==> |frame.data| <= largest)
    && (f.meter.first.Some? <==> f.out != [])
    && Throttled(f)
    && Metered(f.meter, f.limit, f.clock, largest)
  }

  /** A bucket over its limit is charged again only once its window is over. */
  lemma CountIsMetered(m: Meter, limit: nat, size: nat, clock: int, now: int, largest: nat)
    requires Metered(m, limit, clock, largest) && size <= largest <= limit && 0 <= clock <= now
    requires m.bucket.used > limit ==> m.bucket.resetAt <= now
    ensures Metered(Count(m, limit, size, now), limit, now, largest)
  {
    assert limit * (m.resets + 1) == limit * m.resets + limit;
  }

  lemma DeliveryIsBounded(f: Flow, now: int, congested: bool, largest: nat)
    requires Bounded(f, largest) && Enabled(f, Delivers(now, congested))
    ensures Bounded(Deliver(f, now, congested), largest)
  {
    var frame := f.waiting[0];
    assert frame in f.waiting;
    assert forall x :: x in f.waiting[1..] ==> x in f.waiting;
    CountIsMetered(f.meter, f.limit, |frame.data|, f.clock, now, largest);
    hide Count, Metered;
    CountStarts(f.meter, f.limit, |frame.data|, now);
    if f.open {
    } else {
      LaterIsMetered(f.meter, f.limit, f.clock, now, largest);
    }
  }

  lemma CountStarts(m: Meter, limit: nat, size: nat, now: int)
    ensures Count(m, limit, size, now).first.Some?
  {
  }

  lemma LaterIsMetered(m: Meter, limit: nat, clock: int, now: int, largest: nat)
    requires Metered(m, limit, clock, largest) && clock <= now
    ensures Metered(m, limit, now, largest)
  {
  }

  lemma StepIsBounded(f: Flow, e: Event, largest: nat)
    requires Faithful(f) && Bounded(f, largest) && Enabled(f, e)
    requires (e.Arrives? ==> |e.frame.data| <= largest) && !LiftsEarly(f, e)
    ensures Bounded(Step(f, e), largest)
  {
    hide Metered, Deliver, Bytes;
    match e
    case Delivers(now, congested) => DeliveryIsBounded(f, now, congested, largest);
    case RateTimer(now) => LaterIsMetered(f.meter, f.limit, f.clock, now, largest);
    case DrainTimer(_, now) => LaterIsMetered(f.meter, f.limit, f.clock, now, largest);
    case _ =>
  }

  lemma {:induction false} RunIsBounded(f: Flow, events: seq<Event>, largest: nat)
    requires Faithful(f) && Bounded(f, largest) && Run(f, events) && PacedRun(f, events, largest)
    ensures Bounded(Reached(f, events), largest) && Faithful(Reached(f, events))
    decreases |events|
  {
    hide Bounded, LiftsEarly;
    if events != [] {
      StepIsFaithful(f, events[0]);
      StepIsBounded(f, events[0], largest);
      RunIsBounded(Step(f, events[0]), events[1..], largest);
    }
  }

  /**
   With frames no larger than the limit, however congested the receiver, and rate pauses that last until their window
   ends, the bytes relayed in the T milliseconds since the first frame are at most limit * (T / 1000 + 1) plus one
   frame.
   */
  lemma RateIsBounded(limit: nat, start: nat, events: seq<Event>, largest: nat)
    requires 0 < limit && largest <= limit && Run(Start(limit, start), events)
    requires PacedRun(Start(limit, start), events, largest)
    ensures var f := Reached(Start(limit, start), events);
      && f.meter.bucket.used <= limit + largest
      && (f.out == [] ==> Bytes(f.out) == 0)
      && (f.out != [] ==>
            && f.meter.first.Some? && f.meter.first.value <= f.clock
            && Bytes(f.out) <= limit * ((f.clock - f.meter.first.value) / 1000 + 1) + largest)
  {
    var f := Reached(Start(limit, start), events);
    RunIsBounded(Start(limit, start), events, largest);
    LimitIsFixed(Start(limit, start), events);
    if f.out != [] {
      var elapsed := f.clock - f.meter.first.value;
      assert f.meter.resets <= elapsed / WINDOW;
      Scale(limit, f.meter.resets, elapsed / WINDOW);
      assert limit * (elapsed / WINDOW + 1) == limit * (elapsed / WINDOW) + limit;
    }
  }

  lemma {:induction false} LimitIsFixed(f: Flow, events: seq<Event>)
    requires Run(f, events)
    ensures Reached(f, events).limit == f.limit
    decreases |events|
  {
    if events != [] { LimitIsFixed(Step(f, events[0]), events[1..]); }
  }

  lemma Scale(k: nat, a: nat, b: nat)
    requires a <= b
    ensures k * a <= k * b
  {
  }

  // ---- Pauses that end early -----------------------------------------------

  /**
   Whatever happened: a rate timer that is not due runs exactly while the sender is over its limit within a window.
   */
  predicate Timed(f: Flow) {
    && (forall due :: due in f.resumes ==> due <= f.meter.bucket.resetAt)
    && (forall due :: due in f.resumes && f.clock < due ==>
                        due == f.meter.bucket.resetAt && f.meter.bucket.used > f.limit)
    && (f.limit > 0 && f.meter.bucket.used > f.limit && f.clock < f.meter.bucket.resetAt ==>
          f.meter.bucket.resetAt in f.resumes)
    && (f.limit == 0 ==> f.meter.bucket.used == 0)
  }

  lemma PaceIsTimed(f: Flow, size: nat, now: int)
    requires Timed(f) && f.clock <= now && f.limit > 0
    ensures Timed(Pace(f.(clock := now), size, now))
  {
    var t := Pace(f.(clock := now), size, now);
    var due := t.meter.bucket.resetAt;
    assert t.meter.bucket.used > f.limit ==> t.resumes == f.resumes + [due] && t.resumes[|f.resumes|] == due;
    assert forall d :: d in t.resumes ==> d in f.resumes || d == due;
  }

  lemma StepIsTimed(f: Flow, e: Event)
    requires Timed(f) && Enabled(f, e)
    ensures Timed(Step(f, e))
  {
    match e
    case Delivers(now, congested) =>
      hide Count;
      if f.open && f.limit > 0 {
        PaceIsTimed(f.(waiting := f.waiting[1..], out := f.out + [f.waiting[0]]), |f.waiting[0].data|, now);
      }
    case RateTimer(now) =>
      assert forall due :: due in f.resumes <==> due == f.resumes[0] || due in f.resumes[1..] by {
        assert f.resumes == [f.resumes[0]] + f.resumes[1..];
      }
    case _ =>
  }

  lemma {:induction false} RunIsTimed(f: Flow, events: seq<Event>)
    requires Timed(f) && Run(f, events)
    ensures Timed(Reached(f, events))
    decreases |events|
  {
    hide Timed;
    if events != [] {
      StepIsTimed(f, events[0]);
      RunIsTimed(Step(f, events[0]), events[1..]);
    }
  }

  /** A rate timer is running that is not due yet. */
  predicate RatePauseGoesOn(f: Flow, now: int) { exists due :: due in f.resumes && now < due }

  /**
   The one pause flag. In every reachable state, a drain tick ends a rate pause within its window exactly when the
   receiver has drained, the sender is paused, and a rate timer is running that is not due yet; and so does a rate
   timer that is late.
   */
  lemma DrainTimerLiftsTheRatePause(limit: nat, start: nat, events: seq<Event>, e: Event)
    requires 0 < limit && Run(Start(limit, start), events)
    requires Enabled(Reached(Start(limit, start), events), e) && (e.RateTimer? || e.DrainTimer?)
    ensures var f := Reached(Start(limit, start), events);
      LiftsEarly(f, e) <==> (e.DrainTimer? ==> e.clear) && f.paused && RatePauseGoesOn(f, When(e))
  {
    RunIsTimed(Start(limit, start), events);
    LimitIsFixed(Start(limit, start), events);
  }

  /** No window ends later than 1000 ms from now. */
  lemma {:induction false} WindowsEndSoon(f: Flow, events: seq<Event>)
    requires f.meter.bucket.resetAt <= f.clock + 1000 && Run(f, events)
    ensures Reached(f, events).meter.bucket.resetAt <= Reached(f, events).clock + 1000
    decreases |events|
  {
    if events != [] {
      WindowEndsSoon(f, events[0]);
      WindowsEndSoon(Step(f, events[0]), events[1..]);
    }
  }

  lemma WindowEndsSoon(f: Flow, e: Event)
    requires f.meter.bucket.resetAt <= f.clock + 1000 && Enabled(f, e)
    ensures Step(f, e).meter.bucket.resetAt <= Step(f, e).clock + 1000
  {
  }

  /**
   In every reachable state, a frame after which more than the limit has been relayed in the window pauses the sender
   and starts one more rate timer, due later than now and at most 1000 ms from now; no other frame starts one.
   */
  lemma RatePausesLastAtMostASecond(limit: nat, start: nat, events: seq<Event>, now: int, congested: bool)
    requires 0 < limit && Run(Start(limit, start), events)
    requires Enabled(Reached(Start(limit, start), events), Delivers(now, congested))
    ensures var f := Reached(Start(limit, start), events);
      var t := Step(f, Delivers(now, congested));
      var due := t.meter.bucket.resetAt;
      && t.resumes == f.resumes + (if f.open && t.meter.bucket.used > limit then [due] else [])
      && (f.open && t.meter.bucket.used > limit ==> t.paused && now < due <= now + 1000)
  {
    WindowsEndSoon(Start(limit, start), events);
    LimitIsFixed(Start(limit, start), events);
    hide Run, Reached;
    PaceIs(Reached(Start(limit, start), events), now, congested);
  }

  lemma PaceIs(f: Flow, now: int, congested: bool)
    requires 0 < f.limit && f.meter.bucket.resetAt <= f.clock + 1000 && Enabled(f, Delivers(now, congested))
    ensures var t := Step(f, Delivers(now, congested));
      var due := t.meter.bucket.resetAt;
      && t.resumes == f.resumes + (if f.open && t.meter.bucket.used > f.limit then [due] else [])
      && (f.open && t.meter.bucket.used > f.limit ==> t.paused && now < due <= now + 1000)
  {
    WindowEndsSoon(f, Delivers(now, congested));
  }

  /** A paused sender has a timer running that will resume it. */
  predicate Resumable(f: Flow) { f.wired && f.paused ==> f.resumes != [] || f.drains > 0 }

  lemma {:induction false} RunIsResumable(f: Flow, events: seq<Event>)
    requires Resumable(f) && Run(f, events)
    ensures Resumable(Reached(f, events))
    decreases |events|
  {
    hide Count;
    if events != [] { RunIsResumable(Step(f, events[0]), events[1..]); }
  }

  /**
   Nobody is paused for ever: in every reachable state of a wired direction, a paused sender has a rate timer or a drain
   timer running, each of which resumes it when it fires, a drain timer once the receiver has drained or gone; and a
   frame that finds the receiver congested pauses the sender and starts a drain timer.
   */
  lemma PausesEnd(limit: nat, start: nat, events: seq<Event>, now: int)
    requires Run(Start(limit, start), events) && Reached(Start(limit, start), events).clock <= now
    ensures var f := Reached(Start(limit, start), events);
      && (f.wired && f.paused ==> f.resumes != [] || f.drains > 0)
      && (f.resumes != [] && f.resumes[0] <= now ==>
            Enabled(f, RateTimer(now)) && !Step(f, RateTimer(now)).paused)
      && (f.drains > 0 ==>
            && Enabled(f, DrainTimer(true, now)) && !Step(f, DrainTimer(true, now)).paused
            && Enabled(f, DrainTimer(false, now)) && Step(f, DrainTimer(false, now)) == f.(clock := now))
      && (f.wired && f.open && !f.paused && f.waiting != [] ==>
            var t := Step(f, Delivers(now, true)); t.paused && t.drains == f.drains + 1)
  {
    RunIsResumable(Start(limit, start), events);
    hide Run, Reached, Count;
  }

  /** No drain tick finds the receiver drained while a rate timer is running. */
  predicate Apart(f: Flow, events: seq<Event>)
    requires Run(f, events)
    decreases |events|
  {
    events == [] || ((events[0].DrainTimer? && events[0].clear ==> f.resumes == [])
                     && Apart(Step(f, events[0]), events[1..]))
  }

  /** The one rate timer there is pauses the sender until it fires. */
  predicate OneTimer(f: Flow) {
    && (f.resumes == [] || f.resumes == [f.meter.bucket.resetAt])
    && (f.wired && !f.paused ==> f.resumes == [])
    && (!f.wired ==> f.resumes == [])
  }

  lemma {:induction false} ApartIsPaced(f: Flow, events: seq<Event>, largest: nat)
    requires Timed(f) && OneTimer(f) && f.limit > 0 && Run(f, events) && Apart(f, events)
    requires forall frame :: Arrives(frame) in events ==> |frame.data| <= largest
    ensures PacedRun(f, events, largest)
    decreases |events|
  {
    hide Deliver, Metered;
    if events != [] {
      var e := events[0];
      StepIsTimed(f, e);
      OneTimerStays(f, e);
      assert forall frame :: Arrives(frame) in events[1..] ==> Arrives(frame) in events;
      assert e.Arrives? ==> Arrives(e.frame) in events;
      ApartIsPaced(Step(f, e), events[1..], largest);
    }
  }

  lemma OneTimerStays(f: Flow, e: Event)
    requires OneTimer(f) && Enabled(f, e) && (e.DrainTimer? && e.clear ==> f.resumes == [])
    ensures OneTimer(Step(f, e)) && Step(f, e).limit == f.limit
  {
    hide Count;
  }

  /** So the bound holds of every run in which the receiver's drain never coincides with a rate pause. */
  lemma ApartRateIsBounded(limit: nat, start: nat, events: seq<Event>, largest: nat)
    requires 0 < limit && largest <= limit && Run(Start(limit, start), events) && Apart(Start(limit, start), events)
    requires forall frame :: Arrives(frame) in events ==> |frame.data| <= largest
    ensures Reached(Start(limit, start), events).meter.bucket.used <= limit + largest
  {
    ApartIsPaced(Start(limit, start), events, largest);
    RateIsBounded(limit, start, events, largest);
  }

  function FullFrame(limit: nat): Frame { Frame(true, seq(limit, _ => 0)) }

  /** Three full frames; the receiver is congested by the second and drains at once. */
  function Overrun(limit: nat): seq<Event> {
    [Arrives(FullFrame(limit)), Arrives(FullFrame(limit)), Arrives(FullFrame(limit)), Wires,
     Delivers(0, false), Delivers(0, true), DrainTimer(true, 0), Delivers(0, false)]
  }

  lemma GoesOn(f: Flow, e: Event, g: Flow, rest: seq<Event>)
    requires Enabled(f, e) && g == Step(f, e) && Run(g, rest)
    ensures Run(f, [e] + rest) && Reached(f, [e] + rest) == Reached(g, rest)
  {
    hide Step;
    assert ([e] + rest)[1..] == rest;
  }

  /** The flow of three full frames, from its pairing on. */
  function Filling(limit: nat, waiting: seq<Frame>, paused: bool, used: nat, resumes: seq<int>, drains: nat,
                   out: seq<Frame>): Flow
  {
    var x := FullFrame(limit);
    Flow(limit, waiting, true, true, paused, Meter(Bucket(used, WINDOW), Some(0), 0, 0), resumes, drains, [x, x, x],
         out, 0)
  }

  lemma ThreeArrive(limit: nat, rest: seq<Event>)
    requires var x := FullFrame(limit);
      Run(Flow(limit, [x, x, x], true, true, false, Meter(Bucket(0, 0), None, 0, 0), [], 0, [x, x, x], [], 0), rest)
    ensures var x := FullFrame(limit);
      var f := Flow(limit, [x, x, x], true, true, false, Meter(Bucket(0, 0), None, 0, 0), [], 0, [x, x, x], [], 0);
      var events := [Arrives(x)] + ([Arrives(x)] + ([Arrives(x)] + ([Wires] + rest)));
      Run(Start(limit, 0), events) && Reached(Start(limit, 0), events) == Reached(f, rest)
  {
    var x := FullFrame(limit);
    var f0 := Start(limit, 0);
    var f1 := f0.(waiting := [x], sent := [x]);
    var f2 := f0.(waiting := [x, x], sent := [x, x]);
    var f3 := f0.(waiting := [x, x, x], sent := [x, x, x]);
    var f4 := f3.(wired := true, paused := false);
    assert [x] + [x] == [x, x] && [x, x] + [x] == [x, x, x] && [] + [x] == [x];
    hide FullFrame;
    GoesOn(f3, Wires, f4, rest);
    GoesOn(f2, Arrives(x), f3, [Wires] + rest);
    GoesOn(f1, Arrives(x), f2, [Arrives(x)] + ([Wires] + rest));
    GoesOn(f0, Arrives(x), f1, [Arrives(x)] + ([Arrives(x)] + ([Wires] + rest)));
  }

  /** Without that condition the bound fails, for every limit, in the first instant. */
  lemma DrainingOverruns(limit: nat)
    requires limit > 0
    ensures Run(Start(limit, 0), Overrun(limit))
    ensures var f := Reached(Start(limit, 0), Overrun(limit)); f.meter.bucket.used == 3 * limit && f.clock == 0
  {
    var x := FullFrame(limit);
    var f4 := Flow(limit, [x, x, x], true, true, false, Meter(Bucket(0, 0), None, 0, 0), [], 0, [x, x, x], [], 0);
    var f5 := Filling(limit, [x, x], false, limit, [], 0, [x]);
    var f6 := Filling(limit, [x], true, 2 * limit, [WINDOW], 1, [x, x]);
    var f7 := Filling(limit, [x], false, 2 * limit, [WINDOW], 0, [x, x]);
    var f8 := Filling(limit, [], true, 3 * limit, [WINDOW, WINDOW], 0, [x, x, x]);
    assert |x.data| == limit;
    FullDeliveries(limit);
    LastDelivery(limit);
    hide FullFrame, Step;
    GoesOn(f7, Delivers(0, false), f8, []);
    GoesOn(f6, DrainTimer(true, 0), f7, [Delivers(0, false)]);
    GoesOn(f5, Delivers(0, true), f6, [DrainTimer(true, 0), Delivers(0, false)]);
    var rest := [Delivers(0, true), DrainTimer(true, 0), Delivers(0, false)];
    GoesOn(f4, Delivers(0, false), f5, rest);
    ThreeArrive(limit, [Delivers(0, false)] + rest);
    assert Overrun(limit) == [Arrives(x)] + ([Arrives(x)] + ([Arrives(x)] + ([Wires] + ([Delivers(0, false)] + rest))));
  }

  /** The states after each delivery. */
  lemma FullDeliveries(limit: nat)
    requires limit > 0
    ensures var x := FullFrame(limit);
      var f4 := Flow(limit, [x, x, x], true, true, false, Meter(Bucket(0, 0), None, 0, 0), [], 0, [x, x, x], [], 0);
      var f5 := Filling(limit, [x, x], false, limit, [], 0, [x]);
      var f6 := Filling(limit, [x], true, 2 * limit, [WINDOW], 1, [x, x]);
      && Step(f4, Delivers(0, false)) == f5 && Step(f5, Delivers(0, true)) == f6
  {
    var x := FullFrame(limit);
    assert |x.data| == limit;
    hide FullFrame;
    assert [x, x, x][1..] == [x, x] && [x, x][1..] == [x];
    assert [x] + [x] == [x, x] && [] + [x] == [x] && [] + [WINDOW] == [WINDOW];
  }

  lemma LastDelivery(limit: nat)
    requires limit > 0
    ensures var x := FullFrame(limit);
      var f6 := Filling(limit, [x], true, 2 * limit, [WINDOW], 1, [x, x]);
      var f7 := Filling(limit, [x], false, 2 * limit, [WINDOW], 0, [x, x]);
      var f8 := Filling(limit, [], true, 3 * limit, [WINDOW, WINDOW], 0, [x, x, x]);
      Step(f6, DrainTimer(true, 0)) == f7 && Step(f7, Delivers(0, false)) == f8
  {
    var x := FullFrame(limit);
    assert |x.data| == limit;
    hide FullFrame;
    assert [x][1..] == [] && [x, x] + [x] == [x, x, x] && [WINDOW] + [WINDOW] == [WINDOW, WINDOW];
  }

  // ---- The handlers in place -----------------------------------------------

  /** The closure the gateway installs per direction, with its bucket and its timers. */
  class Direction {
    const limit: nat
    var waiting: seq<Frame>
    var wired: bool
    var open: bool
    var paused: bool
    var used: nat
    var resetAt: int
    var resumes: seq<int>
    var drains: nat
    var out: seq<Frame>
    ghost var sent: seq<Frame>
    ghost var clock: int
    ghost var first: Option<int>
    ghost var forgiven: nat
    ghost var resets: nat

    ghost function View(): Flow
      reads this
    {
      Flow(limit, waiting, wired, open, paused, Meter(Bucket(used, resetAt), first, forgiven, resets), resumes, drains,
           sent, out, clock)
    }

    constructor (limit: nat, ghost now: int)
      ensures View() == Start(limit, now)
    {
      this.limit := limit;
      waiting, wired, open, paused, used, resetAt := [], false, true, true, 0, 0;
      resumes, drains, out := [], 0, [];
      sent, clock, first, forgiven, resets := [], now, None, 0, 0;
    }

    method Account(size: nat, now: int)
      modifies `used, `resetAt, `paused, `resumes, `first, `forgiven, `resets
      ensures Meter(Bucket(used, resetAt), first, forgiven, resets)
              == Count(old(Meter(Bucket(used, resetAt), first, forgiven, resets)), limit, size, now)
      ensures used == if now < old(resetAt) then old(used) + size
                      else (if old(used) > limit then old(used) - limit else 0) + size
      ensures resetAt == if now < old(resetAt) then old(resetAt) else now + 1000
      ensures paused == (old(paused) || used > limit)
      ensures resumes == old(resumes) + if used > limit then [resetAt] else []
    {
      ghost var meter := Count(Meter(Bucket(used, resetAt), first, forgiven, resets), limit, size, now);
      first, forgiven, resets := meter.first, meter.forgiven, meter.resets;
      if now >= resetAt {
        used := (if used > limit then used - limit else 0) + size;
        resetAt := now + WINDOW;
      } else {
        used := used + size;
      }
      if used > limit {
        paused := true;
        resumes := resumes + [resetAt];
      }
    }

    /** `buffered` is what the receiver's send buffer holds once the frame is in it. */
    method OnMessage(now: int, buffered: nat)
      requires wired && !paused && waiting != [] && clock <= now
      modifies this
      ensures View() == Deliver(old(View()), now, buffered > 4_194_304)
      ensures waiting == old(waiting)[1..] && out == if open then old(out) + [old(waiting)[0]] else old(out)
      ensures drains == old(drains) + if open && buffered > 4_194_304 then 1 else 0
      ensures paused == (open && (buffered > 4_194_304 || (limit > 0 && used > limit)))
    {
      var frame := waiting[0];
      waiting := waiting[1..];
      clock := now;
      if !open { return; }
      out := out + [frame];
      if limit > 0 {
        Account(|frame.data|, now);
        hide Count;
      }
      if buffered > HIGH_WATER {
        paused := true;
        drains := drains + 1;
      }
    }

    method OnRateTimer(ghost now: int)
      requires Enabled(View(), RateTimer(now))
      modifies this
      ensures View() == Step(old(View()), RateTimer(now))
      ensures resumes == old(resumes)[1..] && !paused
    {
      resumes := resumes[1..];
      paused := false;
      clock := now;
    }

    method OnDrainTick(buffered: nat, ghost now: int)
      requires drains > 0 && clock <= now
      modifies this
      ensures View() == Step(old(View()), DrainTimer(buffered <= 1_048_576 || !open, now))
      ensures drains == old(drains) - (if buffered <= 1_048_576 || !open then 1 else 0)
      ensures paused == (old(paused) && buffered > 1_048_576 && open)
    {
      clock := now;
      if buffered <= HIGH_WATER / 4 || !open {
        drains := drains - 1;
        paused := false;
      }
    }

    method Wire()
      requires Enabled(View(), Wires)
      modifies this
      ensures View() == Step(old(View()), Wires)
      ensures wired && !paused
    {
      wired := true;
      paused := false;
    }
  }
}

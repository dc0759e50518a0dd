/** One backend SDK instance: which credential it presents, and how a refused one recovers; the SDK in place. */
module Backend {
  import opened Basics
  import opened CredentialStore
  import opened StoreProofs
  import opened Session
  import opened Lifecycle
  import Decisions

  // ---- One establish -------------------------------------------------------

  const REFRESH_MARGIN := 60_000

  datatype Held = Held(token: Token, expiresAt: Option<int>)

  /** `exchanges`: an enrollment credential that is to be exchanged for access tokens. */
  datatype Setup = Setup(credential: Token, exchanges: bool)

  datatype ExchangeReply = NoLink | Refused(status: nat) | NoToken | Granted(token: Token, expiresAt: Option<int>)

  datatype HelloReply = LinkDown | Silent | GatewayError(error: ErrorCode) | NoBackend | Welcome

  datatype Outcome = Established | Failed(code: FailureCode, gateway: Option<ErrorCode>)

  /** A handshake made: the token, and whether it came from the cache. */
  datatype Shown = Shown(token: Token, cached: bool)

  datatype Trace = Trace(outcome: Outcome, exchanged: nat, shown: seq<Shown>, held: Option<Held>)

  predicate StillGood(held: Held, now: int) {
    held.expiresAt.None? || now < held.expiresAt.value - REFRESH_MARGIN
  }

  datatype Resolution =
    | Use(token: Token, cached: bool, held: Option<Held>, exchanged: nat)
    | GiveUp(code: FailureCode, exchanged: nat)

  /** `resolveCredential`: the credential itself, the cached token, or a new exchange. */
  function ResolveCredential(setup: Setup, held: Option<Held>, now: int, reply: ExchangeReply): Resolution {
    if !setup.exchanges then Use(setup.credential, false, held, 0)
    else if held.Some? && StillGood(held.value, now) then Use(held.value.token, true, held, 0)
    else match reply
      case NoLink => GiveUp(GatewayUnreachable, 1)
      case Refused(status) => GiveUp(if status == 401 || status == 403 then AuthFailed else GatewayUnreachable, 1)
      case NoToken => GiveUp(ProtocolFailure, 1)
      case Granted(token, expiresAt) => Use(token, false, Some(Held(token, expiresAt)), 1)
  }

  function Classify(reply: HelloReply): Outcome {
    match reply
    case LinkDown => Failed(GatewayUnreachable, None)
    case Silent => Failed(HandshakeTimeout, None)
    case GatewayError(error) => Failed(if error == Unauthorized then AuthFailed else GatewayRejected, Some(error))
    case NoBackend => Failed(ProtocolFailure, None)
    case Welcome => Established
  }

  /** `establish`: one handshake, or two when a cached token is refused as unauthorized. */
  function Establish(setup: Setup, held: Option<Held>, now: int, x1: ExchangeReply, h1: HelloReply,
                     again: int, x2: ExchangeReply, h2: HelloReply): Trace
  {
    match ResolveCredential(setup, held, now, x1)
    case GiveUp(code, n) => Trace(Failed(code, None), n, [], None)
    case Use(token, cached, kept, n) =>
      if !cached || h1 != GatewayError(Unauthorized) then Trace(Classify(h1), n, [Shown(token, cached)], kept)
      else match ResolveCredential(setup, None, again, x2)
        case GiveUp(code, m) => Trace(Failed(code, None), n + m, [Shown(token, cached)], None)
        case Use(exchanged, _, renewed, m) => Trace(Classify(h2), n + m,
                                                    [Shown(token, cached), Shown(exchanged, false)], renewed)
  }

  /**
   Whatever the gateway answers: one exchange and two handshakes at most; the second handshake only after a cached
   token was refused as unauthorized; a cached token only while it is more than the margin from its expiry; and the
   attempt counts as refused authentication exactly if the exchange was refused with 401 or 403, or a credential
   that did not come from the cache was refused as unauthorized.
   */
  lemma EstablishIsBounded(setup: Setup, held: Option<Held>, now: int, x1: ExchangeReply, h1: HelloReply,
                           again: int, x2: ExchangeReply, h2: HelloReply)
    ensures var t := Establish(setup, held, now, x1, h1, again, x2, h2);
      && t.exchanged <= 1 && |t.shown| <= 2
      && (|t.shown| == 2 ==> t.shown[0].cached && !t.shown[1].cached && h1 == GatewayError(Unauthorized))
      && (forall s :: s in t.shown && s.cached ==>
            held.Some? && s.token == held.value.token
            && (held.value.expiresAt == None || now + 60_000 < held.value.expiresAt.value))
      && (t.outcome.Failed? && t.outcome.code == AuthFailed <==>
            || (t.shown == [] && (x1 == Refused(401) || x1 == Refused(403)) && t.exchanged == 1)
            || (|t.shown| == 1 && t.shown[0].cached && h1 == GatewayError(Unauthorized)
                && (x2 == Refused(401) || x2 == Refused(403)))
            || (|t.shown| == 1 && !t.shown[0].cached && h1 == GatewayError(Unauthorized))
            || (|t.shown| == 2 && h2 == GatewayError(Unauthorized)))
  {
  }

  /** How the last handshake's end shows. */
  predicate Tells(outcome: Outcome, reply: HelloReply) {
    && (outcome == Established <==> reply == Welcome)
    && (outcome == Failed(GatewayUnreachable, None) <==> reply == LinkDown)
    && (outcome == Failed(HandshakeTimeout, None) <==> reply == Silent)
    && (outcome == Failed(ProtocolFailure, None) <==> reply == NoBackend)
    && (forall error :: reply == GatewayError(error) ==>
                          outcome == Failed(if error == Unauthorized then AuthFailed else GatewayRejected, Some(error)))
  }

  /**
   Which tokens are shown, and what is cached afterwards: without exchanges the credential, and the cache stays; a
   cached token that is good for more than a minute, and it stays unless it is refused as unauthorized; else the token
   exchanged, which is cached instead, and nothing is shown or cached if there is none. The outcome is the last
   handshake's.
   */
  lemma CacheFollowsExchanges(setup: Setup, held: Option<Held>, now: int, x1: ExchangeReply, h1: HelloReply,
                              again: int, x2: ExchangeReply, h2: HelloReply)
    ensures var t := Establish(setup, held, now, x1, h1, again, x2, h2);
      var good := held.Some? && (held.value.expiresAt == None || now + 60_000 < held.value.expiresAt.value);
      var refused := h1 == GatewayError(Unauthorized);
      && (!setup.exchanges ==> t.shown == [Shown(setup.credential, false)] && t.held == held && Tells(t.outcome, h1))
      && (setup.exchanges && good && !refused ==>
            t.shown == [Shown(held.value.token, true)] && t.held == held && Tells(t.outcome, h1))
      && (setup.exchanges && good && refused ==>
            if x2.Granted? then t.shown == [Shown(held.value.token, true), Shown(x2.token, false)]
                                && t.held == Some(Held(x2.token, x2.expiresAt)) && Tells(t.outcome, h2)
            else t.shown == [Shown(held.value.token, true)] && t.held == None && t.outcome.Failed?)
      && (setup.exchanges && !good ==>
            if x1.Granted? then t.shown == [Shown(x1.token, false)] && t.held == Some(Held(x1.token, x1.expiresAt))
                                && Tells(t.outcome, h1)
            else t.shown == [] && t.held == None && t.outcome.Failed?)
  {
  }

  // ---- The gateway's answers -----------------------------------------------

  /** The exchange route's answer; `spent` is whether the caller's failure bucket is. */
  ghost function ExchangeAnswer(s: Store, token: Token, ttl: Ttl, draw: Draw, spent: bool, now: int): ExchangeReply {
    var id := Resolve(s, token, now);
    if id.None? then Refused(if spent then 429 else 401)
    else if s.credentials[id.value].kind != Enrollment then Refused(403)
    else Granted(draw.token, Expiry(Access, ttl, now))
  }

  /**
   The exchange is granted exactly for the token of an enrollment in force, with the new token and the lifetime asked
   for, by default one day; another row in force is forbidden (403), and none is unauthorized (401), or reported as
   too many requests (429) once the failure bucket is spent.
   */
  lemma ExchangeAnswersAre(s: Store, token: Token, ttl: Ttl, draw: Draw, spent: bool, now: int, id: CredentialId)
    requires TokensUnique(s)
    ensures var answer := ExchangeAnswer(s, token, ttl, draw, spent, now);
      && ((forall k :: Decisions.InForce(s, k, now) ==> s.credentials[k].token != token) ==>
            answer == Refused(if spent then 429 else 401))
      && (Decisions.InForce(s, id, now) && s.credentials[id].token == token ==>
            answer == if s.credentials[id].kind != Enrollment then Refused(403)
                      else Granted(draw.token, match ttl
                                               case Never => None
                                               case Millis(ms) => Some(now + ms)
                                               case Default => Some(now + 86_400_000)))
  {
    Decisions.ResolvedIs(s, token, now);
    Decisions.UniqueToken(s, token, now);
    hide Resolve, Decisions.InForce;
  }

  ghost function HelloAnswer(s: Store, h: Hello, spent: bool, now: int): HelloReply {
    match JudgeHello(s, h, spent, now)
    case Denied(error) => GatewayError(error)
    case Admitted(_) => Welcome
  }

  /** A row that will get its bearer in until then, with what the hello declares. */
  ghost predicate Standing(s: Store, id: CredentialId, h: Hello, until: int) {
    && id in s.credentials && Usable(s, id, until) && s.credentials[id].kind != Device
    && s.credentials[id].namespace == h.namespace && h.version == PROTOCOL_VERSION
    && (s.credentials[id].backendId.Some? || h.instanceId.Some?)
  }

  /** The enrollment is good now and stays so, fits what the backend declares, and can register. */
  ghost predicate GoodEnrollment(s: Store, setup: Setup, h: Hello, e: CredentialId, until: int) {
    Standing(s, e, h, until) && s.credentials[e].kind == Enrollment && s.credentials[e].token == setup.credential
  }

  lemma StandingResolves(s: Store, id: CredentialId, h: Hello, now: int, until: int)
    requires TokensUnique(s) && Standing(s, id, h, until) && now <= until
    ensures Resolve(s, s.credentials[id].token, now) == Some(id)
  {
    assert Holds(s, id, s.credentials[id].token);
  }

  lemma StandingIsWelcome(s: Store, id: CredentialId, h: Hello, now: int, until: int)
    requires TokensUnique(s) && Standing(s, id, h, until) && now <= until
    ensures HelloAnswer(s, h.(token := s.credentials[id].token), false, now) == Welcome
  {
    StandingResolves(s, id, h, now, until);
    hide Resolve;
  }

  lemma EarlierIsGood(s: Store, token: Token, e: CredentialId, now: int, until: int)
    requires TokensUnique(s) && Resolve(s, token, until) == Some(e) && now <= until
    ensures Resolve(s, token, now) == Some(e)
  {
  }

  /** What an exchange hands out is accepted afterwards, as an access credential of the enrollment. */
  lemma ExchangedTokenResolves(s: Store, token: Token, e: CredentialId, ttl: Ttl, draw: Draw, now: int, later: int)
    requires Inv(s) && FreshDraw(s, draw) && now <= later
    requires Resolve(s, token, later) == Some(e) && e in s.credentials && s.credentials[e].kind == Enrollment
    requires var expiry := Expiry(Access, ttl, now); expiry.Some? ==> later <= expiry.value
    ensures var t := ExchangeRoute(s, token, ttl, draw, now);
      var row := Resolve(t, draw.token, later);
      && row.Some? && AccessRow(t, row.value, e) && t.credentials[row.value].token == draw.token
      && t.credentials[row.value].namespace == s.credentials[e].namespace
      && t.credentials[row.value].backendId == s.credentials[e].backendId
  {
    EarlierIsGood(s, token, e, now, later);
    var t := ExchangeRoute(s, token, ttl, draw, now);
    ExchangeRouteKeepsInv(s, token, ttl, draw, now);
    var seen := FindValid(s, token, now);
    var existing := AccessOf(seen, e);
    var row := if existing.Some? then existing.value else draw.id;
    assert Holds(t, row, draw.token);
    assert ByToken(t, draw.token) == Some(row);
    assert e in t.credentials;
  }

  /** After an exchange the enrollment stands as before, and so does the access row with the new token. */
  lemma ExchangeStands(s: Store, setup: Setup, h: Hello, e: CredentialId, ttl: Ttl, draw: Draw, now: int, hello: int,
                       until: int)
    returns (row: CredentialId)
    requires Inv(s) && FreshDraw(s, draw) && now <= hello <= until && GoodEnrollment(s, setup, h, e, until)
    requires var expiry := Expiry(Access, ttl, now); expiry.Some? ==> hello <= expiry.value
    ensures ExchangeAnswer(s, setup.credential, ttl, draw, false, now) == Granted(draw.token, Expiry(Access, ttl, now))
    ensures var t := ExchangeRoute(s, setup.credential, ttl, draw, now);
      && Inv(t) && GoodEnrollment(t, setup, h, e, until)
      && Standing(t, row, h, hello) && AccessRow(t, row, e) && t.credentials[row].token == draw.token
  {
    var t := ExchangeRoute(s, setup.credential, ttl, draw, now);
    InvTokens(s);
    StandingResolves(s, e, h, now, until);
    StandingResolves(s, e, h, hello, until);
    ExchangeRouteKeepsInv(s, setup.credential, ttl, draw, now);
    ExchangedTokenResolves(s, setup.credential, e, ttl, draw, now, hello);
    ExchangeKeepsParent(s, setup.credential, e, ttl, draw, now);
    hide Inv, ExchangeRoute, Expiry;
    row := Resolve(t, draw.token, hello).value;
  }

  lemma ExchangeKeepsParent(s: Store, token: Token, e: CredentialId, ttl: Ttl, draw: Draw, now: int)
    requires Inv(s) && FreshDraw(s, draw) && Resolve(s, token, now) == Some(e)
    requires e in s.credentials && s.credentials[e].kind == Enrollment
    ensures var t := ExchangeRoute(s, token, ttl, draw, now);
      e in t.credentials && t.credentials[e] == s.credentials[e].(lastUsedAt := Some(now))
  {
  }

  lemma StampingKeepsStanding(s: Store, token: Token, now: int, id: CredentialId, h: Hello, until: int)
    requires Standing(s, id, h, until)
    ensures var t := FindValid(s, token, now);
      Standing(t, id, h, until) && t.credentials[id] == s.credentials[id].(lastUsedAt := t.credentials[id].lastUsedAt)
  {
  }

  // ---- What others do meanwhile --------------------------------------------

  /** The operation neither exchanges the enrollment nor revokes it or its access credential. */
  ghost predicate Spares(s: Store, op: Op, e: CredentialId) {
    match op
    case Exchange(token, _, _, now) => Resolve(s, token, now) != Some(e)
    case Revoke(ids, _) => e !in ids && forall k :: k in ids ==> !AccessRow(s, k, e)
    case _ => true
  }

  /** A run of other people's operations, each with fresh draws. */
  ghost predicate SparingRun(s: Store, ops: seq<Op>, e: CredentialId)
    decreases |ops|
  {
    ops == [] || (DrawsFresh(s, ops[0]) && Spares(s, ops[0], e) && SparingRun(Apply(s, ops[0]), ops[1..], e))
  }

  /** The same row, perhaps bound to a backend meanwhile. */
  predicate SameRow(a: Credential, b: Credential) {
    && b.kind == a.kind && b.token == a.token && b.namespace == a.namespace && b.parent == a.parent
    && b.expiresAt == a.expiresAt && b.revokedAt == a.revokedAt && (a.backendId.Some? ==> b.backendId == a.backendId)
  }

  ghost predicate RowStays(s: Store, t: Store, k: CredentialId)
    requires k in s.credentials
  {
    k in t.credentials && SameRow(s.credentials[k], t.credentials[k])
  }

  lemma {:induction false} RevokingOthers(s: Store, ids: seq<CredentialId>, now: int, k: CredentialId)
    requires k in s.credentials && k !in ids
             && (s.credentials[k].parent.Some? ==> s.credentials[k].parent.value !in ids)
    ensures k in RevokeCredentials(s, ids, now).credentials
    ensures RevokeCredentials(s, ids, now).credentials[k] == s.credentials[k]
    decreases |ids|
  {
    if ids != [] {
      var t := RevokeCredential(s, ids[0], now);
      assert k in t.credentials && t.credentials[k] == s.credentials[k];
      RevokingOthers(t, ids[1..], now, k);
    }
  }

  lemma ExchangingOthers(s: Store, op: Op, k: CredentialId)
    requires Drawn(s) && op.Exchange? && FreshDraw(s, op.draw) && k in s.credentials
    requires s.credentials[k].parent.Some? ==> Resolve(s, op.token, op.now) != s.credentials[k].parent
    ensures RowStays(s, Apply(s, op), k)
  {
    var id := Resolve(s, op.token, op.now);
    var seen := FindValid(s, op.token, op.now);
    assert RowStays(s, seen, k);
    if id.Some? && s.credentials[id.value].kind == Enrollment {
      var existing := AccessOf(seen, id.value);
      assert existing.Some? ==> existing.value != k;
    }
  }

  lemma OthersKeepRow(s: Store, op: Op, k: CredentialId)
    requires Drawn(s) && ParentsLive(s) && DrawsFresh(s, op) && k in s.credentials && s.credentials[k].Active()
    requires !op.Exchange? && !op.Revoke?
    ensures RowStays(s, Apply(s, op), k)
  {
    hide ByToken, Known, InUse, ScopeKnown;
  }

  lemma SparedRowStays(s: Store, op: Op, e: CredentialId, k: CredentialId)
    requires Inv(s) && DrawsFresh(s, op) && Spares(s, op, e) && k in s.credentials && s.credentials[k].Active()
    requires (k == e && s.credentials[e].kind == Enrollment) || AccessRow(s, k, e)
    ensures RowStays(s, Apply(s, op), k)
  {
    EnrollmentsHaveNoParent(s, k);
    hide Apply, RowStays, Resolve;
    if op.Exchange? {
      ExchangingOthers(s, op, k);
    } else if op.Revoke? {
      RevokingOthers(s, op.ids, op.now, k);
      RevokeIs(s, op, k);
    } else {
      OthersKeepRow(s, op, k);
    }
  }

  lemma RevokeIs(s: Store, op: Op, k: CredentialId)
    requires op.Revoke? && k in s.credentials && k in RevokeCredentials(s, op.ids, op.now).credentials
    requires RevokeCredentials(s, op.ids, op.now).credentials[k] == s.credentials[k]
    ensures RowStays(s, Apply(s, op), k)
  {
    hide RevokeCredentials;
  }

  lemma EnrollmentsHaveNoParent(s: Store, k: CredentialId)
    requires Inv(s) && k in s.credentials
    ensures s.credentials[k].kind == Enrollment ==> s.credentials[k].parent.None?
    ensures Drawn(s) && ParentsLive(s)
  {
  }

  /** The enrollment stands, and so does its access row k, if one is looked at. */
  ghost predicate BothStand(s: Store, e: CredentialId, k: CredentialId, h: Hello, until: int, hello: int) {
    && Standing(s, e, h, until) && s.credentials[e].kind == Enrollment
    && (k == e || AccessRow(s, k, e)) && Standing(s, k, h, hello)
  }

  lemma StandingStays(s: Store, op: Op, e: CredentialId, k: CredentialId, h: Hello, until: int, hello: int)
    requires Inv(s) && DrawsFresh(s, op) && Spares(s, op, e) && BothStand(s, e, k, h, until, hello)
    ensures var t := Apply(s, op);
      && Inv(t) && BothStand(t, e, k, h, until, hello)
      && t.credentials[e].token == s.credentials[e].token && t.credentials[k].token == s.credentials[k].token
  {
    hide Inv, Apply, Spares;
    ApplyKeepsInv(s, op);
    EnrollmentsHaveNoParent(s, e);
    SparedRowStays(s, op, e, e);
    SparedRowStays(s, op, e, k);
  }

  lemma {:induction false} SparedRunStands(s: Store, ops: seq<Op>, e: CredentialId, k: CredentialId, h: Hello,
                                           until: int, hello: int)
    requires Inv(s) && SparingRun(s, ops, e) && BothStand(s, e, k, h, until, hello)
    ensures var t := After(s, ops);
      && Inv(t) && BothStand(t, e, k, h, until, hello)
      && t.credentials[e].token == s.credentials[e].token && t.credentials[k].token == s.credentials[k].token
    decreases |ops|
  {
    hide Inv, Apply, Spares, BothStand, DrawsFresh;
    if ops != [] {
      StandingStays(s, ops[0], e, k, h, until, hello);
      SparedRunStands(Apply(s, ops[0]), ops[1..], e, k, h, until, hello);
    }
  }

  // ---- An establish against the gateway ------------------------------------

  /** The steps of one establish happen at these times; no step comes before the one it follows. */
  datatype Times = Times(resolve: int, hello: int, again: int, retry: int)
  {
    predicate Ordered() { resolve <= hello <= again <= retry }
  }

  /** Which of the four calls get through; a broken handshake ends in one of the two ways a handshake can break. */
  datatype Links = Links(exchange: bool, hello: Option<HelloReply>, again: bool, retry: Option<HelloReply>)
  {
    predicate Valid() {
      && (hello.Some? ==> hello.value == LinkDown || hello.value == Silent)
      && (retry.Some? ==> retry.value == LinkDown || retry.value == Silent)
    }
    predicate AllUp() { exchange && hello.None? && again && retry.None? }
  }

  /** What others do to the store between the four calls. */
  datatype Gaps = Gaps(beforeHello: seq<Op>, beforeAgain: seq<Op>, beforeRetry: seq<Op>)

  /** The draws of the two exchanges an establish may make. */
  datatype Draws2 = Draws2(first: Draw, second: Draw)

  /** The store before the first hello, given whether an exchange was made. */
  ghost function BeforeHello(s: Store, setup: Setup, ttl: Ttl, draws: Draws2, at: Times, gaps: Gaps,
                             exchanged: bool): Store
  {
    After(if exchanged then ExchangeRoute(s, setup.credential, ttl, draws.first, at.resolve) else s, gaps.beforeHello)
  }

  /** The store before the second exchange, the first hello having been refused. */
  ghost function BeforeAgain(before: Store, token: Token, at: Times, gaps: Gaps): Store {
    After(FindValid(before, token, at.hello), gaps.beforeAgain)
  }

  /** The store before the second hello. */
  ghost function BeforeRetry(before: Store, setup: Setup, ttl: Ttl, draws: Draws2, at: Times, gaps: Gaps): Store {
    After(ExchangeRoute(before, setup.credential, ttl, draws.second, at.again), gaps.beforeRetry)
  }

  /** An establish against the gateway's store, with others at work between its calls. */
  ghost function EstablishAt(s: Store, setup: Setup, h: Hello, held: Option<Held>, ttl: Ttl, draws: Draws2, spent: bool,
                             at: Times, up: Links, gaps: Gaps): Trace
  {
    var x1 := if up.exchange then ExchangeAnswer(s, setup.credential, ttl, draws.first, spent, at.resolve) else NoLink;
    var first := ResolveCredential(setup, held, at.resolve, x1);
    var token := if first.Use? then first.token else setup.credential;
    var s1 := BeforeHello(s, setup, ttl, draws, at, gaps, first.Use? && first.exchanged == 1);
    var h1 := if up.hello.Some? then up.hello.value else HelloAnswer(s1, h.(token := token), spent, at.hello);
    var s2 := BeforeAgain(s1, token, at, gaps);
    var x2 := if up.again then ExchangeAnswer(s2, setup.credential, ttl, draws.second, spent, at.again) else NoLink;
    var s3 := BeforeRetry(s2, setup, ttl, draws, at, gaps);
    var h2 := if up.retry.Some? then up.retry.value
              else HelloAnswer(s3, h.(token := draws.second.token), spent, at.retry);
    Establish(setup, held, at.resolve, x1, h1, at.again, x2, h2)
  }

  ghost predicate LivesLongEnough(ttl: Ttl, at: Times) {
    && (Expiry(Access, ttl, at.resolve).Some? ==> at.hello <= Expiry(Access, ttl, at.resolve).value)
    && (Expiry(Access, ttl, at.again).Some? ==> at.retry <= Expiry(Access, ttl, at.again).value)
  }

  /** With a cached token: what others do before the hello, and, should it be refused, after it. */
  ghost predicate SparedCached(s: Store, setup: Setup, token: Token, e: CredentialId, ttl: Ttl, draws: Draws2,
                               at: Times, gaps: Gaps)
  {
    var s1 := BeforeHello(s, setup, ttl, draws, at, gaps, false);
    var s2 := BeforeAgain(s1, token, at, gaps);
    && SparingRun(s, gaps.beforeHello, e)
    && SparingRun(FindValid(s1, token, at.hello), gaps.beforeAgain, e)
    && FreshDraw(s2, draws.second)
    && SparingRun(ExchangeRoute(s2, setup.credential, ttl, draws.second, at.again), gaps.beforeRetry, e)
  }

  /** With nothing cached: what others do between the exchange and the hello. */
  ghost predicate SparedUncached(s: Store, setup: Setup, e: CredentialId, ttl: Ttl, draws: Draws2, at: Times,
                                 gaps: Gaps)
  {
    && FreshDraw(s, draws.first)
    && SparingRun(ExchangeRoute(s, setup.credential, ttl, draws.first, at.resolve), gaps.beforeHello, e)
  }

  /**
   With a good enrollment and the failure bucket not spent, and whatever others do to the store meanwhile as long as
   nobody else exchanges this enrollment and nobody revokes it or its access credential, an establish never ends in
   refused authentication, whatever the cache held and wherever the network breaks; and if the network does not break
   and nothing usable is cached, it ends connected.
   */
  lemma GoodEnrollmentIsNeverRefused(s: Store, setup: Setup, h: Hello, held: Option<Held>, e: CredentialId, ttl: Ttl,
                                     draws: Draws2, at: Times, up: Links, gaps: Gaps)
    requires Inv(s) && setup.exchanges && at.Ordered() && up.Valid()
    requires GoodEnrollment(s, setup, h, e, at.retry) && LivesLongEnough(ttl, at)
    requires if held.Some? && StillGood(held.value, at.resolve)
             then SparedCached(s, setup, held.value.token, e, ttl, draws, at, gaps)
             else SparedUncached(s, setup, e, ttl, draws, at, gaps)
    ensures var t := EstablishAt(s, setup, h, held, ttl, draws, false, at, up, gaps);
      && (t.outcome.Failed? ==> t.outcome.code != AuthFailed)
      && (up.AllUp() && !(held.Some? && StillGood(held.value, at.resolve)) ==>
            t.outcome == Established && t.exchanged == 1)
  {
    hide EstablishAt, GoodEnrollment, LivesLongEnough, Inv, SparedCached, SparedUncached;
    if held.Some? && StillGood(held.value, at.resolve) {
      CachedRecovers(s, setup, h, held.value, e, ttl, draws, at, up, gaps);
    } else {
      UncachedConnects(s, setup, h, held, e, ttl, draws, at, up, gaps);
    }
  }

  /** The second exchange succeeds, and the token it hands out is welcome. */
  lemma RetryIsWelcome(s: Store, setup: Setup, h: Hello, token: Token, e: CredentialId, ttl: Ttl, draws: Draws2,
                       at: Times, gaps: Gaps)
    requires Inv(s) && at.Ordered() && GoodEnrollment(s, setup, h, e, at.retry) && LivesLongEnough(ttl, at)
    requires SparedCached(s, setup, token, e, ttl, draws, at, gaps)
    ensures var s1 := BeforeHello(s, setup, ttl, draws, at, gaps, false);
      var s2 := BeforeAgain(s1, token, at, gaps);
      && ExchangeAnswer(s2, setup.credential, ttl, draws.second, false, at.again).Granted?
      && ExchangeAnswer(s2, setup.credential, ttl, draws.second, false, at.again).token == draws.second.token
      && HelloAnswer(BeforeRetry(s2, setup, ttl, draws, at, gaps), h.(token := draws.second.token), false, at.retry)
         == Welcome
  {
    hide Inv, Standing, FindValid, ExchangeRoute, ExchangeAnswer, HelloAnswer, Expiry, SparingRun, After, FreshDraw;
    var s1 := BeforeHello(s, setup, ttl, draws, at, gaps, false);
    SparedRunStands(s, gaps.beforeHello, e, e, h, at.retry, at.retry);
    var seen := FindValid(s1, token, at.hello);
    FindValidKeepsInv(s1, token, at.hello);
    StampingKeepsStanding(s1, token, at.hello, e, h, at.retry);
    SparedRunStands(seen, gaps.beforeAgain, e, e, h, at.retry, at.retry);
    var s2 := BeforeAgain(s1, token, at, gaps);
    var row := ExchangeStands(s2, setup, h, e, ttl, draws.second, at.again, at.retry, at.retry);
    var exchanged := ExchangeRoute(s2, setup.credential, ttl, draws.second, at.again);
    SparedRunStands(exchanged, gaps.beforeRetry, e, row, h, at.retry, at.retry);
    InvTokens(After(exchanged, gaps.beforeRetry));
    StandingIsWelcome(After(exchanged, gaps.beforeRetry), row, h, at.retry, at.retry);
  }

  lemma CachedRecovers(s: Store, setup: Setup, h: Hello, held: Held, e: CredentialId, ttl: Ttl, draws: Draws2,
                       at: Times, up: Links, gaps: Gaps)
    requires Inv(s) && setup.exchanges && at.Ordered() && up.Valid() && StillGood(held, at.resolve)
    requires GoodEnrollment(s, setup, h, e, at.retry) && LivesLongEnough(ttl, at)
    requires SparedCached(s, setup, held.token, e, ttl, draws, at, gaps)
    ensures var t := EstablishAt(s, setup, h, Some(held), ttl, draws, false, at, up, gaps);
      t.outcome.Failed? ==> t.outcome.code != AuthFailed
  {
    hide Inv, ExchangeAnswer, HelloAnswer, BeforeHello, BeforeAgain, BeforeRetry, SparedCached, LivesLongEnough,
         GoodEnrollment;
    RetryIsWelcome(s, setup, h, held.token, e, ttl, draws, at, gaps);
  }

  lemma UncachedConnects(s: Store, setup: Setup, h: Hello, held: Option<Held>, e: CredentialId, ttl: Ttl, draws: Draws2,
                         at: Times, up: Links, gaps: Gaps)
    requires Inv(s) && setup.exchanges && at.Ordered() && up.Valid()
    requires !(held.Some? && StillGood(held.value, at.resolve))
    requires GoodEnrollment(s, setup, h, e, at.retry) && LivesLongEnough(ttl, at)
    requires SparedUncached(s, setup, e, ttl, draws, at, gaps)
    ensures var t := EstablishAt(s, setup, h, held, ttl, draws, false, at, up, gaps);
      && (t.outcome.Failed? ==> t.outcome.code != AuthFailed)
      && (up.AllUp() ==> t.outcome == Established && t.exchanged == 1)
  {
    hide Inv, ExchangeAnswer, HelloAnswer, BeforeHello, BeforeAgain, BeforeRetry, SparedUncached, LivesLongEnough,
         GoodEnrollment;
    FirstIsWelcome(s, setup, h, e, ttl, draws, at, gaps);
  }

  lemma FirstIsWelcome(s: Store, setup: Setup, h: Hello, e: CredentialId, ttl: Ttl, draws: Draws2, at: Times,
                       gaps: Gaps)
    requires Inv(s) && at.Ordered() && GoodEnrollment(s, setup, h, e, at.retry) && LivesLongEnough(ttl, at)
    requires SparedUncached(s, setup, e, ttl, draws, at, gaps)
    ensures ExchangeAnswer(s, setup.credential, ttl, draws.first, false, at.resolve).Granted?
    ensures ExchangeAnswer(s, setup.credential, ttl, draws.first, false, at.resolve).token == draws.first.token
    ensures HelloAnswer(BeforeHello(s, setup, ttl, draws, at, gaps, true), h.(token := draws.first.token), false,
                        at.hello) == Welcome
  {
    hide Inv, Standing, ExchangeRoute, ExchangeAnswer, HelloAnswer, Expiry, SparingRun, After, FreshDraw;
    var row := ExchangeStands(s, setup, h, e, ttl, draws.first, at.resolve, at.hello, at.retry);
    var exchanged := ExchangeRoute(s, setup.credential, ttl, draws.first, at.resolve);
    SparedRunStands(exchanged, gaps.beforeHello, e, row, h, at.retry, at.hello);
    InvTokens(After(exchanged, gaps.beforeHello));
    StandingIsWelcome(After(exchanged, gaps.beforeHello), row, h, at.hello, at.hello);
  }

  lemma InvTokens(s: Store)
    requires Inv(s)
    ensures TokensUnique(s)
  {
  }

  /**
   A cached token the gateway no longer accepts is replaced within the attempt exactly if the failure bucket is not
   spent: once it is, the refusal reads RATE_LIMITED, the token stays cached, and nothing is exchanged.
   */
  lemma RecoveryNeedsAnUnspentBucket(s: Store, setup: Setup, h: Hello, held: Held, ttl: Ttl, draws: Draws2, spent: bool,
                                     at: Times, up: Links, gaps: Gaps)
    requires setup.exchanges && StillGood(held, at.resolve) && up.hello.None?
    requires Resolve(After(s, gaps.beforeHello), held.token, at.hello).None?
    ensures var t := EstablishAt(s, setup, h, Some(held), ttl, draws, spent, at, up, gaps);
      && (t.exchanged == 1 <==> !spent)
      && (spent ==> t.outcome == Failed(GatewayRejected, Some(RateLimited)) && t.held == Some(held) && |t.shown| == 1)
  {
    hide ExchangeAnswer, ExchangeRoute, BeforeAgain, BeforeRetry, Resolve, After;
  }

  // ---- The SDK in place ----------------------------------------------------

  class GatewayBackend {
    const setup: Setup
    const reconnect: bool
    var phase: Phase
    var socket: Option<Socket>
    var failure: Option<FailureCode>
    var closed: bool
    var attempts: nat
    var timers: nat
    var firsts: nat
    var retries: nat
    var accessToken: Option<Held>
    ghost var up: Option<Socket>

    ghost function View(): Sdk
      reads this
    {
      Sdk(phase, socket, failure, closed, attempts, timers, firsts, retries, up)
    }

    constructor (setup: Setup, reconnect: bool)
      ensures View() == NEW_SDK && accessToken.None? && this.setup == setup && this.reconnect == reconnect
    {
      this.setup, this.reconnect := setup, reconnect;
      phase, socket, failure, closed, accessToken := Idle, None, None, false, None;
      attempts, timers, firsts, retries, up := 0, 0, 0, 0, None;
    }

    method StartConnect()
      modifies this
      ensures View() == Begin(old(View())) && accessToken == old(accessToken)
      ensures !closed && failure.None? && phase == Connecting && firsts == old(firsts) + 1 && socket == old(socket)
    {
      closed := false;
      failure := None;
      phase := Connecting;
      firsts := firsts + 1;
    }

    /** An attempt opens its socket. */
    method OpenSocket(dialled: Socket)
      requires firsts + retries > 0
      modifies `socket
      ensures View() == Lifecycle.Step(old(View()), Lifecycle.DoDial(dialled), TYPESCRIPT)
    {
      socket := Some(dialled);
    }

    method RecordFailure(code: FailureCode)
      modifies `failure
      ensures View() == Record(old(View()), code)
      ensures failure == if closed then old(failure) else Some(code)
    {
      if closed { return; }
      failure := Some(code);
    }

    method ScheduleReconnect()
      modifies `attempts, `timers
      ensures View() == Schedule(old(View()))
      ensures attempts == old(attempts) + 1 && timers == old(timers) + 1
    {
      attempts := attempts + 1;
      timers := timers + 1;
    }

    method HandshakeDone(scheduled: bool)
      requires socket.Some? && UnderWay(View(), scheduled)
      modifies `attempts, `failure, `phase, `firsts, `retries, `up
      ensures View() == Succeed(old(View()), socket.value, scheduled)
      ensures attempts == 0 && failure.None? && phase == Connected && up == socket
    {
      AttemptEnds(scheduled);
      attempts := 0;
      failure := None;
      phase := Connected;
      up := socket;
    }

    method AttemptEnds(scheduled: bool)
      requires UnderWay(View(), scheduled)
      modifies `firsts, `retries
      ensures View() == Finish(old(View()), scheduled)
    {
      if scheduled { retries := retries - 1; } else { firsts := firsts - 1; }
    }

    method AttemptFailed(code: FailureCode, scheduled: bool)
      requires UnderWay(View(), scheduled)
      modifies `socket, `attempts, `timers, `failure, `firsts, `retries
      ensures View() == Fail(old(View()), code, scheduled)
      ensures socket.None? && failure == (if closed then old(failure) else Some(code))
      ensures timers == old(timers) + (if scheduled then 1 else 0) && phase == old(phase)
    {
      AttemptEnds(scheduled);
      socket := None;
      RecordFailure(code);
      if scheduled { ScheduleReconnect(); }
    }

    method OnTimer()
      requires timers > 0
      modifies `timers, `phase, `retries
      ensures View() == Fire(old(View()))
      ensures timers == old(timers) - 1 && retries == old(retries) + (if closed then 0 else 1)
      ensures phase == if closed then old(phase) else Connecting
    {
      timers := timers - 1;
      if closed { return; }
      phase := Connecting;
      retries := retries + 1;
    }

    method HandleClose(which: Socket, code: nat)
      modifies `socket, `failure, `phase, `attempts, `timers, `up
      ensures View() == OnClose(old(View()), which, code, reconnect)
      ensures old(socket) != Some(which) ==>
                socket == old(socket) && phase == old(phase) && failure == old(failure) && timers == old(timers)
      ensures old(socket) == Some(which) ==>
                && socket.None? && up.None?
                && failure == (if code == 4001 && !closed then Some(Replaced) else old(failure))
                && phase == (if closed || code == 4001 || !reconnect then Stopped else Connecting)
                && timers == old(timers) + if closed || code == 4001 || !reconnect then 0 else 1
    {
      if socket != Some(which) { return; }
      socket := None;
      up := None;
      if code == CLOSE_REPLACED && !closed {
        failure := Some(Replaced);
        phase := Stopped;
        return;
      }
      if closed || !reconnect {
        phase := Stopped;
        return;
      }
      phase := Connecting;
      ScheduleReconnect();
    }

    method Close()
      modifies `closed, `phase, `socket, `up
      ensures View() == Shut(old(View()), false)
      ensures closed && phase == Stopped && socket.None? && timers == old(timers)
    {
      up := None;
      closed := true;
      phase := Stopped;
      socket := None;
    }

    /** The credential for the next handshake; the cache is dropped before an exchange and refilled by it. */
    method NextCredential(now: int, reply: ExchangeReply) returns (r: Resolution)
      modifies `accessToken
      ensures r == ResolveCredential(setup, old(accessToken), now, reply)
      ensures r.Use? && setup.exchanges ==> accessToken == r.held
      ensures r.Use? && !setup.exchanges ==> accessToken == old(accessToken)
      ensures r.GiveUp? ==> accessToken.None?
    {
      if !setup.exchanges { return Use(setup.credential, false, accessToken, 0); }
      if accessToken.Some? && (accessToken.value.expiresAt.None?
                               || now < accessToken.value.expiresAt.value - REFRESH_MARGIN) {
        return Use(accessToken.value.token, true, accessToken, 0);
      }
      accessToken := None;
      match reply
      case NoLink => return GiveUp(GatewayUnreachable, 1);
      case Refused(status) =>
        if status == 401 || status == 403 { return GiveUp(AuthFailed, 1); }
        return GiveUp(GatewayUnreachable, 1);
      case NoToken => return GiveUp(ProtocolFailure, 1);
      case Granted(token, expiresAt) =>
        accessToken := Some(Held(token, expiresAt));
        return Use(token, false, accessToken, 1);
    }

    /** One attempt, given what the gateway will answer to each call it makes. */
    method EstablishOnce(now: int, x1: ExchangeReply, h1: HelloReply, again: int, x2: ExchangeReply, h2: HelloReply)
      returns (t: Trace)
      modifies `accessToken
      ensures t == Establish(setup, old(accessToken), now, x1, h1, again, x2, h2)
      ensures accessToken == t.held
    {
      var first := NextCredential(now, x1);
      if first.GiveUp? { return Trace(Failed(first.code, None), first.exchanged, [], None); }
      var shown := [Shown(first.token, first.cached)];
      if !first.cached || h1 != GatewayError(Unauthorized) {
        return Trace(Classify(h1), first.exchanged, shown, accessToken);
      }
      accessToken := None;
      var second := NextCredential(again, x2);
      if second.GiveUp? { return Trace(Failed(second.code, None), first.exchanged + second.exchanged, shown, None); }
      return Trace(Classify(h2), first.exchanged + second.exchanged, shown + [Shown(second.token, false)], accessToken);
    }
  }
}

/**
 The credential and identity store as values: what each operation of the
 storage class makes of its maps. Random draws are parameters; `draws` records
 every value drawn so far, so "fresh" means "not drawn before". A token stands
 for its own digest (the hash is taken to be injective).
 */
module CredentialStore {
  import opened Basics

  type CredentialId = nat
  type Token = nat

  type Namespace = string
  type BackendId = string

  datatype Kind = Device | Enrollment | Access

  datatype Credential = Credential(
    kind: Kind,
    token: Token,
    namespace: Namespace,
    parent: Option<CredentialId>,
    createdAt: int,
    expiresAt: Option<int>,
    revokedAt: Option<int>,
    lastUsedAt: Option<int>,
    backendId: Option<BackendId>,
    scope: Option<seq<BackendId>>)
  {
    predicate Active() { revokedAt.None? }
    predicate ExpiredAt(now: int) { expiresAt.Some? && now > expiresAt.value }
  }

  /** Legacy identities are keyed by what the hello says, bound ones by their own id. */
  datatype IdentityKey =
    | Legacy(namespace: Namespace, instanceId: string, environment: string)
    | Bound(id: BackendId)

  datatype Identity = Identity(
    backendId: BackendId,
    namespace: Namespace,
    createdAt: int,
    lastCredential: Option<CredentialId>,
    lastSeenAt: Option<int>)

  datatype Draws = Draws(ids: set<CredentialId>, tokens: set<Token>, backends: set<BackendId>)

  datatype Draw = Draw(id: CredentialId, token: Token, backendId: BackendId)

  datatype Store = Store(
    credentials: map<CredentialId, Credential>,
    identities: map<IdentityKey, Identity>,
    maxEpoch: nat,
    draws: Draws)

  const EMPTY := Store(map[], map[], 0, Draws({}, {}, {}))

  datatype Ttl = Default | Never | Millis(ms: int)

  const DEVICE_TTL := 180 * 24 * 60 * 60 * 1000
  const ACCESS_TTL := 24 * 60 * 60 * 1000

  function Expiry(kind: Kind, ttl: Ttl, now: int): Option<int> {
    match ttl
    case Never => None
    case Millis(ms) => Some(now + ms)
    case Default =>
      match kind
      case Device => Some(now + DEVICE_TTL)
      case Access => Some(now + ACCESS_TTL)
      case Enrollment => None
  }

  // ---- Lookups -------------------------------------------------------------

  ghost predicate Holds(s: Store, id: CredentialId, token: Token) {
    id in s.credentials && s.credentials[id].token == token
  }

  ghost function ByToken(s: Store, token: Token): (r: Option<CredentialId>)
    ensures r.Some? ==> Holds(s, r.value, token)
    ensures r.None? ==> forall id :: !Holds(s, id, token)
  {
    if exists id :: Holds(s, id, token) then
      var id :| Holds(s, id, token);
      Some(id)
    else None
  }

  /** Neither revoked nor expired, and the same holds of the credential it was exchanged from. */
  ghost predicate Usable(s: Store, id: CredentialId, now: int)
    requires id in s.credentials
  {
    var c := s.credentials[id];
    && c.Active() && !c.ExpiredAt(now)
    && (c.parent.Some? ==>
          && c.parent.value in s.credentials
          && s.credentials[c.parent.value].Active()
          && !s.credentials[c.parent.value].ExpiredAt(now))
  }

  /** The credential a presented token resolves to at a time, if any. */
  ghost function Resolve(s: Store, token: Token, now: int): Option<CredentialId> {
    var id := ByToken(s, token);
    if id.Some? && Usable(s, id.value, now) then id else None
  }

  ghost predicate AccessRow(s: Store, id: CredentialId, parent: CredentialId) {
    id in s.credentials && s.credentials[id].kind == Access && s.credentials[id].parent == Some(parent)
  }

  ghost function AccessOf(s: Store, parent: CredentialId): (r: Option<CredentialId>)
    ensures r.Some? ==> AccessRow(s, r.value, parent)
    ensures r.None? ==> forall id :: !AccessRow(s, id, parent)
  {
    if exists id :: AccessRow(s, id, parent) then
      var id :| AccessRow(s, id, parent);
      Some(id)
    else None
  }

  ghost predicate NamedBy(s: Store, key: IdentityKey, backendId: BackendId) {
    key in s.identities && s.identities[key].backendId == backendId
  }

  ghost predicate Known(s: Store, backendId: BackendId, namespace: Namespace) {
    exists key :: NamedBy(s, key, backendId) && s.identities[key].namespace == namespace
  }

  // ---- Operations ----------------------------------------------------------

  function AllocateEpoch(s: Store): Store {
    s.(maxEpoch := s.maxEpoch + 1)
  }

  /** The id a legacy hello maps to, created on first use. */
  function LegacyId(s: Store, key: IdentityKey, draw: BackendId): BackendId {
    if key in s.identities then s.identities[key].backendId else draw
  }

  function GetOrCreateBackendId(s: Store, key: IdentityKey, draw: BackendId, now: int): Store
    requires key.Legacy?
  {
    if key in s.identities then s
    else s.(identities := s.identities[key := Identity(draw, key.namespace, now, None, None)],
            draws := s.draws.(backends := s.draws.backends + {draw}))
  }

  function CreateBoundIdentity(s: Store, namespace: Namespace, draw: BackendId, now: int): Store {
    s.(identities := s.identities[Bound(draw) := Identity(draw, namespace, now, None, None)],
       draws := s.draws.(backends := s.draws.backends + {draw}))
  }

  function TouchIdentity(s: Store, backendId: BackendId, root: Option<CredentialId>, now: int): Store {
    s.(identities := map k | k in s.identities ::
         var i := s.identities[k];
         if i.backendId != backendId then i
         else i.(lastSeenAt := Some(now), lastCredential := if root.Some? then root else i.lastCredential))
  }

  function CreateCredential(s: Store, kind: Kind, namespace: Namespace, ttl: Ttl, parent: Option<CredentialId>,
                            backendId: Option<BackendId>, scope: Option<seq<BackendId>>, draw: Draw, now: int): Store
  {
    var makesIdentity := kind == Enrollment && backendId.None?;
    var base := if makesIdentity then CreateBoundIdentity(s, namespace, draw.backendId, now) else s;
    var bound := if kind == Device then None else if makesIdentity then Some(draw.backendId) else backendId;
    var row := Credential(kind, draw.token, namespace, parent, now, Expiry(kind, ttl, now), None, None,
                          bound, if kind == Device then scope else None);
    base.(credentials := base.credentials[draw.id := row],
          draws := base.draws.(ids := base.draws.ids + {draw.id}, tokens := base.draws.tokens + {draw.token}))
  }

  /** A successful lookup stamps the row it found. */
  ghost function FindValid(s: Store, token: Token, now: int): Store {
    var id := Resolve(s, token, now);
    if id.None? then s
    else s.(credentials := s.credentials[id.value := s.credentials[id.value].(lastUsedAt := Some(now))])
  }

  /** The row of the parent's access credential after an exchange: same id, everything else replaced. */
  function Rotated(row: Credential, parent: Credential, ttl: Ttl, token: Token, now: int): Credential {
    row.(token := token, namespace := parent.namespace, createdAt := now,
         expiresAt := Expiry(Access, ttl, now), revokedAt := None, backendId := parent.backendId)
  }

  ghost function ExchangeAccess(s: Store, parent: CredentialId, ttl: Ttl, draw: Draw, now: int): Store
    requires parent in s.credentials
  {
    var p := s.credentials[parent];
    var existing := AccessOf(s, parent);
    if existing.None? then CreateCredential(s, Access, p.namespace, ttl, Some(parent), p.backendId, None, draw, now)
    else s.(credentials := s.credentials[existing.value :=
                                         Rotated(s.credentials[existing.value], p, ttl, draw.token, now)],
            draws := s.draws.(tokens := s.draws.tokens + {draw.token}))
  }

  predicate Bindable(s: Store, id: CredentialId) {
    id in s.credentials && s.credentials[id].kind == Enrollment
    && s.credentials[id].Active() && s.credentials[id].backendId.None?
  }

  /** `id` itself or a credential exchanged from it, still unrevoked. */
  predicate LiveFamily(s: Store, id: CredentialId, k: CredentialId)
    requires k in s.credentials
  {
    (k == id || s.credentials[k].parent == Some(id)) && s.credentials[k].Active()
  }

  function BindBackend(s: Store, id: CredentialId, backendId: BackendId): Store {
    if !Bindable(s, id) then s
    else s.(credentials := map k | k in s.credentials ::
              if LiveFamily(s, id, k) then s.credentials[k].(backendId := Some(backendId)) else s.credentials[k])
  }

  function SetAllowedBackends(s: Store, id: CredentialId, scope: Option<seq<BackendId>>): Store {
    if id !in s.credentials || s.credentials[id].kind != Device || !s.credentials[id].Active() then s
    else s.(credentials := s.credentials[id := s.credentials[id].(scope := scope)])
  }

  function RevokeCredential(s: Store, id: CredentialId, now: int): Store {
    if id !in s.credentials || !s.credentials[id].Active() then s
    else s.(credentials := map k | k in s.credentials ::
              if LiveFamily(s, id, k) then s.credentials[k].(revokedAt := Some(now)) else s.credentials[k])
  }

  function RevokeCredentials(s: Store, ids: seq<CredentialId>, now: int): Store
    decreases |ids|
  {
    if ids == [] then s else RevokeCredentials(RevokeCredential(s, ids[0], now), ids[1..], now)
  }

  function PurgeRevoked(s: Store, wanted: Option<set<CredentialId>>): Store {
    s.(credentials := map k | k in s.credentials
       && !(s.credentials[k].revokedAt.Some? && (wanted.Some? ==> k in wanted.value))
                        :: s.credentials[k])
  }

  /** Something may still resolve to this backend, so its identity row must stay. */
  ghost predicate InUse(s: Store, backendId: BackendId) {
    || (exists id :: id in s.credentials && s.credentials[id].kind == Enrollment
                     && s.credentials[id].Active() && s.credentials[id].backendId == Some(backendId))
    || (exists key :: NamedBy(s, key, backendId) && LegacyRegistrant(s, s.identities[key].lastCredential))
  }

  /** The credential last seen registering an identity is an active, unbound one. */
  predicate LegacyRegistrant(s: Store, last: Option<CredentialId>) {
    last.Some? && last.value in s.credentials
    && s.credentials[last.value].Active() && s.credentials[last.value].backendId.None?
  }

  function DeleteIdentity(s: Store, backendId: BackendId): Store {
    s.(identities := map k | k in s.identities && s.identities[k].backendId != backendId :: s.identities[k])
  }

  ghost function ForgetBackend(s: Store, backendId: BackendId, online: bool): Store {
    if online || InUse(s, backendId) then s else DeleteIdentity(s, backendId)
  }

  // ---- The routes over them, and runs --------------------------------------

  datatype Op =
    | Issue(kind: Kind, namespace: Namespace, ttl: Ttl, bound: Option<BackendId>, scope: Option<seq<BackendId>>,
            draw: Draw, now: int)
    | Exchange(token: Token, ttl: Ttl, draw: Draw, now: int)
    | Authenticate(token: Token, now: int)
    | Bind(id: CredentialId, backendId: BackendId)
    | Rescope(id: CredentialId, scope: Option<seq<BackendId>>)
    | Revoke(ids: seq<CredentialId>, now: int)
    | Purge(wanted: Option<set<CredentialId>>)
    | Forget(backendId: BackendId, online: bool)
    | Register(key: IdentityKey, draw: Draw, now: int)
    | Touch(backendId: BackendId, root: Option<CredentialId>, now: int)
    | NextEpoch

  ghost predicate ScopeKnown(s: Store, scope: Option<seq<BackendId>>, namespace: Namespace) {
    scope.Some? ==> scope.value != [] && forall b :: b in scope.value ==> Known(s, b, namespace)
  }

  ghost predicate Issuable(s: Store, op: Op)
    requires op.Issue?
  {
    && op.kind != Access
    && (op.bound.Some? ==> op.kind == Enrollment && Known(s, op.bound.value, op.namespace))
    && (op.scope.Some? ==> op.kind == Device && ScopeKnown(s, op.scope, op.namespace))
  }

  /** The exchange route: authenticate, insist on an enrollment credential, rotate. */
  ghost function ExchangeRoute(s: Store, token: Token, ttl: Ttl, draw: Draw, now: int): Store {
    var id := Resolve(s, token, now);
    var seen := FindValid(s, token, now);
    if id.None? || s.credentials[id.value].kind != Enrollment then seen
    else ExchangeAccess(seen, id.value, ttl, draw, now)
  }

  ghost function Apply(s: Store, op: Op): Store {
    match op
    case Issue(kind, namespace, ttl, bound, scope, draw, now) =>
      if Issuable(s, op) then CreateCredential(s, kind, namespace, ttl, None, bound, scope, draw, now) else s
    case Exchange(token, ttl, draw, now) => ExchangeRoute(s, token, ttl, draw, now)
    case Authenticate(token, now) => FindValid(s, token, now)
    case Bind(id, backendId) =>
      if Bindable(s, id) && Known(s, backendId, s.credentials[id].namespace) then BindBackend(s, id, backendId) else s
    case Rescope(id, scope) =>
      if id in s.credentials && ScopeKnown(s, scope, s.credentials[id].namespace) then SetAllowedBackends(s, id, scope)
        else s
    case Revoke(ids, now) => RevokeCredentials(s, ids, now)
    case Purge(wanted) => PurgeRevoked(s, wanted)
    case Forget(backendId, online) => ForgetBackend(s, backendId, online)
    case Register(key, draw, now) => if key.Legacy? then GetOrCreateBackendId(s, key, draw.backendId, now) else s
    case Touch(backendId, root, now) => TouchIdentity(s, backendId, root, now)
    case NextEpoch => AllocateEpoch(s)
  }

  predicate FreshDraw(s: Store, d: Draw) {
    d.id !in s.draws.ids && d.token !in s.draws.tokens && d.backendId !in s.draws.backends
  }

  predicate DrawsFresh(s: Store, op: Op) {
    (op.Issue? || op.Exchange? || op.Register?) ==> FreshDraw(s, op.draw)
  }

  /** A run: every operation draws values nobody drew before. */
  ghost predicate Run(s: Store, ops: seq<Op>)
    decreases |ops|
  {
    ops == [] || (DrawsFresh(s, ops[0]) && Run(Apply(s, ops[0]), ops[1..]))
  }

  ghost function After(s: Store, ops: seq<Op>): Store
    decreases |ops|
  {
    if ops == [] then s else After(Apply(s, ops[0]), ops[1..])
  }

  // ---- The invariant -------------------------------------------------------

  ghost predicate Drawn(s: Store) {
    && (forall id :: id in s.credentials ==> id in s.draws.ids && s.credentials[id].token in s.draws.tokens)
    && (forall key :: key in s.identities ==> s.identities[key].backendId in s.draws.backends)
  }

  /** A bound identity carries its key's id, a legacy one its key's namespace. */
  predicate Matches(key: IdentityKey, identity: Identity) {
    match key
    case Legacy(namespace, _, _) => identity.namespace == namespace
    case Bound(id) => identity.backendId == id
  }

  ghost predicate KeysMatch(s: Store) {
    forall key :: key in s.identities ==> Matches(key, s.identities[key])
  }

  ghost predicate TokensUnique(s: Store) {
    forall i, j :: i in s.credentials && j in s.credentials && s.credentials[i].token == s.credentials[j].token ==>
      i == j
  }

  ghost predicate IdentitiesUnique(s: Store) {
    forall i, j :: i in s.identities && j in s.identities && s.identities[i].backendId == s.identities[j].backendId ==>
      i == j
  }

  ghost predicate OneAccessRow(s: Store) {
    forall i, j, p :: AccessRow(s, i, p) && AccessRow(s, j, p) ==> i == j
  }

  /** Exactly the access rows have a parent, and a parent that is present is an enrollment credential. */
  ghost predicate Shaped(s: Store) {
    forall id :: id in s.credentials ==>
      var c := s.credentials[id];
      && (c.kind == Access <==> c.parent.Some?)
      && (c.kind == Device ==> c.backendId.None?)
      && (c.parent.Some? && c.parent.value in s.credentials ==> s.credentials[c.parent.value].kind == Enrollment)
      && (c.parent.Some? ==> c.parent.value in s.draws.ids)
  }

  /** An unrevoked access row has a live parent in the same namespace and with the same backend. */
  ghost predicate ParentsLive(s: Store) {
    forall id :: id in s.credentials && s.credentials[id].parent.Some? && s.credentials[id].Active() ==>
      var p := s.credentials[id].parent.value;
      && p in s.credentials && s.credentials[p].Active()
      && s.credentials[p].namespace == s.credentials[id].namespace
      && s.credentials[p].backendId == s.credentials[id].backendId
  }

  /** An unrevoked bound credential has its identity row, in its own namespace. */
  ghost predicate BoundKnown(s: Store) {
    forall id :: id in s.credentials && s.credentials[id].Active() && s.credentials[id].backendId.Some? ==>
      Known(s, s.credentials[id].backendId.value, s.credentials[id].namespace)
  }

  ghost predicate Inv(s: Store) {
    Drawn(s) && KeysMatch(s) && TokensUnique(s) && IdentitiesUnique(s) && OneAccessRow(s) && Shaped(s)
      && ParentsLive(s) && BoundKnown(s)
  }
}

/** Login sessions, refresh-token rotation and the session cache.

    The sessions table is the authority. Beside it a lossy cache keeps a live marker per
    session, the set of live session ids per user, a dead marker per session, and the set of
    rotated-out token hashes. Times are milliseconds; one call reads the clock once. */
module SessionMachine {
  import opened Basics

  type UserId = string
  type SessionId = string
  type Hash = string

  const DEAD_MARKER_TTL := 60000

  datatype Row = Row(user: UserId, hash: Hash, expiresAt: int, revoked: bool)

  /** The signed content of a refresh token, named by the token's hash. */
  datatype Claims = Claims(user: UserId, session: SessionId, expiresAt: int)

  /** The set of live session ids of one user, with its own expiry. */
  datatype Members = Members(ids: set<SessionId>, until: int)

  /** `issued` is every refresh token ever signed: a token verifies when it is one of them and
      is not past its own expiry. `active`, `inactive` and `revoked` map a key to its expiry. */
  datatype State = State(
    refreshTTL: int,
    now: int,
    rows: map<SessionId, Row>,
    issued: map<Hash, Claims>,
    revoked: map<Hash, int>,
    active: map<SessionId, int>,
    members: map<UserId, Members>,
    inactive: map<SessionId, int>)

  /** JWT dates hold whole seconds. */
  function WholeSecond(t: int): (r: int)
    ensures t - 1000 < r <= t
  {
    t - t % 1000
  }

  /** A key exists in the cache until its expiry. */
  predicate Holds(keys: map<string, int>, key: string, now: int) {
    key in keys && now < keys[key]
  }

  /** The row is unrevoked and unexpired. */
  predicate Live(s: State, sid: SessionId) {
    sid in s.rows && !s.rows[sid].revoked && s.now < s.rows[sid].expiresAt
  }

  predicate Verifies(s: State, h: Hash) {
    h in s.issued && s.now < s.issued[h].expiresAt
  }

  predicate HeldBy(s: State, h: Hash, sid: SessionId) {
    sid in s.rows && s.rows[sid].hash == h && !s.rows[sid].revoked
  }

  /** The unrevoked row with this refresh-token hash. */
  ghost function FindByHash(s: State, h: Hash): (found: Option<SessionId>)
    ensures found.Some? ==> HeldBy(s, h, found.value)
    ensures found.None? ==> forall sid :: !HeldBy(s, h, sid)
  {
    if sid :| HeldBy(s, h, sid) then Some(sid) else None
  }

  // --- The cache ---

  function Listed(s: State, user: UserId): set<SessionId> {
    if user in s.members && s.now < s.members[user].until then s.members[user].ids else {}
  }

  /** Sets the marker, adds it to the user's set, and gives the whole set the same expiry. */
  function MarkActive(s: State, user: UserId, sid: SessionId, ttl: int): State {
    s.(active := s.active[sid := s.now + ttl],
       members := s.members[user := Members(Listed(s, user) + {sid}, s.now + ttl)])
  }

  function ClearOne(s: State, user: UserId, sid: SessionId): State {
    s.(active := s.active - {sid},
       members := if user in s.members then s.members[user := s.members[user].(ids := s.members[user].ids - {sid})]
                  else s.members)
  }

  /** Deletes the markers the user's set still lists, then the set. */
  function ClearAll(s: State, user: UserId): State {
    s.(active := s.active - Listed(s, user), members := s.members - {user})
  }

  // --- The table ---

  function RevokeRow(s: State, sid: SessionId): State {
    if sid in s.rows then s.(rows := s.rows[sid := s.rows[sid].(revoked := true)]) else s
  }

  function RevokeRows(s: State, user: UserId): State {
    s.(rows := map sid | sid in s.rows ::
         if s.rows[sid].user == user then s.rows[sid].(revoked := true) else s.rows[sid])
  }

  /** Ends every session of a user, row and marker; neither failure stops the other. It answers
      a replayed token, and a change of PIN or access code. */
  function EndSessions(s: State, user: UserId, revoke: bool, clear: bool): State {
    var t := if revoke then RevokeRows(s, user) else s;
    if clear then ClearAll(t, user) else t
  }

  // --- The calls ---

  /** The session half of a login: session id and token are newly generated. */
  function Login(s: State, sid: SessionId, user: UserId, h: Hash, create: Outcome, mark: bool): State {
    if sid in s.rows || sid in s.inactive || h in s.issued || create == Refused then s
    else
      var expiresAt := s.now + s.refreshTTL;
      var t := s.(rows := s.rows[sid := Row(user, h, expiresAt, false)],
                  issued := s.issued[h := Claims(user, sid, WholeSecond(expiresAt))]);
      if create == Done && mark then MarkActive(t, user, sid, s.refreshTTL) else t
  }

  datatype Answer = Tokens(next: Hash) | TokenInvalid | TokenExpired | Failed

  /** Reads answer or fail; best-effort writes take effect or do not, whatever they report. */
  datatype RefreshCalls = RefreshCalls(isRevoked: bool, find: bool, update: Outcome, mark: bool, markActive: bool,
                                       revokeRows: bool, clear: bool)

  function Rotated(s: State, h: Hash, sid: SessionId, next: Hash): State
    requires h in s.issued && sid in s.rows
  {
    var expiresAt := s.now + s.refreshTTL;
    s.(rows := s.rows[sid := s.rows[sid].(hash := next, expiresAt := expiresAt)],
       issued := s.issued[next := Claims(s.issued[h].user, sid, WholeSecond(expiresAt))])
  }

  /** After the table has the new hash: remember the old one for what was left of the row's
      life, and extend the live marker. */
  function AfterRotation(t: State, h: Hash, sid: SessionId, user: UserId, oldExpiry: int, c: RefreshCalls): State {
    var u := if c.mark && t.now < oldExpiry then t.(revoked := t.revoked[h := oldExpiry]) else t;
    if c.markActive then MarkActive(u, user, sid, u.refreshTTL) else u
  }

  /** `next` is the hash of the newly generated token: its random id makes it a new one. */
  ghost function Refresh(s: State, h: Hash, next: Hash, c: RefreshCalls): (State, Answer)
    requires next !in s.issued
  {
    if !Verifies(s, h) then (s, TokenInvalid)
    else if !c.isRevoked then (s, TokenInvalid)
    else if Holds(s.revoked, h, s.now) then (EndSessions(s, s.issued[h].user, c.revokeRows, c.clear), TokenInvalid)
    else if !c.find then (s, Failed)
    else
      var found := FindByHash(s, h);
      if found.None? then (s, TokenInvalid)
      else
        var sid := found.value;
        var row := s.rows[sid];
        if row.expiresAt < s.now then (s, TokenExpired)
        else if row.user != s.issued[h].user || sid != s.issued[h].session then (s, TokenInvalid)
        else if c.update == Refused then (s, Failed)
        else if c.update == LostReply then (Rotated(s, h, sid, next), Failed)
        else (AfterRotation(Rotated(s, h, sid, next), h, sid, row.user, row.expiresAt, c), Tokens(next))
  }

  function Logout(s: State, sid: SessionId, user: UserId, revoke: Outcome, clear: bool): State {
    var t := if revoke == Refused then s else RevokeRow(s, sid);
    if revoke == Done && clear then ClearOne(t, user, sid) else t
  }

  /** A failed statement ends the call before the cache is touched. */
  function LogoutAll(s: State, user: UserId, revoke: Outcome, clear: bool): State {
    EndSessions(s, user, revoke != Refused, revoke == Done && clear)
  }

  datatype Verdict = Active | Inactive | Unknown

  datatype CheckCalls = CheckCalls(isActive: bool, isInactive: bool, find: bool, mark: bool)

  /** IsSessionActive: the markers first, then the table, whose answer is remembered. */
  function Check(s: State, sid: SessionId, c: CheckCalls): (State, Verdict) {
    if c.isActive && Holds(s.active, sid, s.now) then (s, Active)
    else if c.isInactive && Holds(s.inactive, sid, s.now) then (s, Inactive)
    else if !c.find then (s, Unknown)
    else if !Live(s, sid) then
      (if c.mark then s.(inactive := s.inactive[sid := s.now + DEAD_MARKER_TTL]) else s, Inactive)
    else
      (if c.mark then MarkActive(s, s.rows[sid].user, sid, s.rows[sid].expiresAt - s.now) else s, Active)
  }

  // --- Runs ---

  datatype Event =
    | LoginEvent(session: SessionId, user: UserId, hash: Hash, create: Outcome, mark: bool)
    | RefreshEvent(hash: Hash, next: Hash, refreshCalls: RefreshCalls)
    | LogoutEvent(session: SessionId, user: UserId, revoke: Outcome, clear: bool)
    | LogoutAllEvent(user: UserId, revoke: Outcome, clear: bool)
    | ChangeEvent(user: UserId, revokeRows: bool, clear: bool)
    | CheckEvent(session: SessionId, checkCalls: CheckCalls)
    | LoseActive(session: SessionId)
    | LoseInactive(session: SessionId)
    | LoseMembers(user: UserId)
    | LoseRevoked(hash: Hash)
    | Tick(now: int)

  ghost function Apply(s: State, e: Event): State {
    match e
    case LoginEvent(sid, user, h, create, mark) => Login(s, sid, user, h, create, mark)
    case RefreshEvent(h, next, c) => if next in s.issued then s else Refresh(s, h, next, c).0
    case LogoutEvent(sid, user, revoke, clear) => Logout(s, sid, user, revoke, clear)
    case LogoutAllEvent(user, revoke, clear) => LogoutAll(s, user, revoke, clear)
    case ChangeEvent(user, revoke, clear) => EndSessions(s, user, revoke, clear)
    case CheckEvent(sid, c) => Check(s, sid, c).0
    case LoseActive(sid) => s.(active := s.active - {sid})
    case LoseInactive(sid) => s.(inactive := s.inactive - {sid})
    case LoseMembers(user) => s.(members := s.members - {user})
    case LoseRevoked(h) => s.(revoked := s.revoked - {h})
    case Tick(now) => s.(now := if now > s.now then now else s.now)
  }

  ghost function Run(s: State, events: seq<Event>): State
    decreases |events|
  {
    if events == [] then s else Run(Apply(s, events[0]), events[1..])
  }

  function Initial(refreshTTL: int, now: int): State {
    State(refreshTTL, now, map[], map[], map[], map[], map[], map[])
  }
}

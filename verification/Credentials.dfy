/** Credentials (auth/tokens.py, auth/jwt.py, api/v1/auth.py, api/v1/api_keys.py, api/deps.py) as a step system.

    Every request runs in its own database transaction. A request is cut at its database statements, so a run
    is any interleaving of the statements of any number of requests. Row updates take a row lock until the
    transaction ends, as PostgreSQL does, and are seen by others only after the commit; writes to Redis and
    signed tokens take effect at once and survive a rollback. */
module Credentials {
  import opened Prelude

  type UserId = nat
  type OrgId = nat
  type Jti = nat
  type KeyId = nat
  type TxId = nat
  type Permission = string

  const SECOND := 1_000_000  // the clock counts microseconds
  const ACCESS_TTL := 15 * 60 * SECOND
  const REFRESH_TTL := 14 * 24 * 3600 * SECOND

  /* ---------- tokens ---------- */

  datatype TokenType = Access | Refresh

  /** A signed token. `exp` is in whole seconds, everything else is carried as is. */
  datatype Claims = Claims(user: UserId, org: Option<OrgId>, perms: set<Permission>, jti: Jti, exp: int, typ: TokenType)

  function Encode(user: UserId, org: Option<OrgId>, perms: set<Permission>, jti: Jti, ttl: int, typ: TokenType,
                  now: int)
    : Claims
  {
    Claims(user, org, perms, jti, (now + ttl) / SECOND, typ)
  }

  /** What is left of a lifetime in whole seconds, as SETEX takes it; none when the lifetime is over. */
  function RemainingSeconds(exp: int, now: int): int {
    if exp * SECOND > now then (exp * SECOND - now) / SECOND else 0
  }

  /* ---------- the database and Redis ---------- */

  datatype Cause = ByLogin | BySwitch | ByRotation(parent: Jti)

  /** A row of the sessions table. The table has no columns for `org`, `cause` and `serial`: they record where
      the row came from, so that the chains of rotations can be spoken of. */
  datatype Row = Row(user: UserId, issuedAt: int, expiresAt: int, revokedAt: Option<int>,
                     org: Option<OrgId>, cause: Cause, serial: nat)

  /** A row of the API keys. The table has no columns for `mintedWith` and `origin`: they record the credential that
      minted the key, and the token at the beginning of the keys minted with keys. */
  datatype ApiKey = ApiKey(user: UserId, scope: set<Permission>, expiresAt: Option<int>, revokedAt: Option<int>,
                           mintedWith: Credential, origin: Claims)

  datatype Credential = Token(claims: Claims) | Key(id: KeyId)

  datatype Job =
    | LoginJob(user: UserId, org: Option<OrgId>, perms: set<Permission>)
    | SwitchJob(caller: Claims, target: OrgId, perms: set<Permission>)
    | RefreshJob(claims: Claims)
    | LogoutJob(caller: Claims, cookie: Option<Claims>)

  datatype Stage = Checked | Halfway | Done

  /** An open transaction: the rows it has set revoked_at on (and so locked), and the rows it has inserted. */
  datatype Tx = Tx(job: Job, stage: Stage, revokes: map<Jti, int>, inserts: map<Jti, Row>)

  /** The permissions a profile had when a login or a switch read it. */
  datatype Grant = Grant(user: UserId, org: OrgId, perms: set<Permission>, at: int)

  datatype Tally = Tally(logins: nat, switches: nat, rotations: nat, loggedOut: nat)

  datatype State = State(
    now: int,
    memberships: map<(UserId, OrgId), set<Permission>>,  // the permissions of the profile of each membership
    rows: map<Jti, Row>,                                 // committed session rows
    txs: map<TxId, Tx>,
    keys: map<KeyId, ApiKey>,
    denied: map<Jti, int>,                               // denylist keys and the instants they vanish
    used: set<Jti>,                                      // every jti drawn so far
    minted: set<Claims>,                                 // every token signed so far
    grants: set<Grant>,
    revoked: map<Jti, int>,                              // jti and exp of every revoke_session call
    tally: Tally)                                        // committed requests

  const Start: State :=
    State(0, map[], map[], map[], map[], map[], {}, {}, {}, map[], Tally(0, 0, 0, 0))

  predicate IsDenied(s: State, jti: Jti, at: int) { jti in s.denied && at < s.denied[jti] }

  /** decode_jwt: a token signed by us, before its expiry. */
  predicate Decodes(s: State, c: Claims, at: int) { c in s.minted && at < c.exp * SECOND }

  predicate KeyIsValid(s: State, k: KeyId, at: int) {
    k in s.keys && s.keys[k].revokedAt.None? && (s.keys[k].expiresAt.Some? ==> at <= s.keys[k].expiresAt.value)
  }

  /** get_current_user. */
  predicate Accepts(s: State, cred: Credential, at: int) {
    match cred
    case Token(c) => Decodes(s, c, at) && c.typ == Access && !IsDenied(s, c.jti, at)
    case Key(k) => KeyIsValid(s, k, at)
  }

  function PermissionsOf(s: State, cred: Credential): set<Permission>
    requires cred.Key? ==> cred.id in s.keys
  {
    match cred case Token(c) => c.perms case Key(k) => s.keys[k].scope
  }

  function UserOf(s: State, cred: Credential): UserId
    requires cred.Key? ==> cred.id in s.keys
  {
    match cred case Token(c) => c.user case Key(k) => s.keys[k].user
  }

  /** The organization a request acts in: a token's own; with a key, the default organization its user then has. */
  function ActsIn(cred: Credential, defaultOrg: Option<OrgId>): Option<OrgId> {
    match cred case Token(c) => c.org case Key(_) => defaultOrg
  }

  function OriginOf(s: State, cred: Credential): Claims
    requires cred.Key? ==> cred.id in s.keys
  {
    match cred case Token(c) => c case Key(k) => s.keys[k].origin
  }

  const CATALOG: set<Permission> :=
    {"manageOrganization", "manageUser", "manageProfile", "manageApiKey", "viewAudit", "manageCase", "viewCase",
     "manageAlert", "viewAlert", "manageObservable", "viewObservable", "manageTask", "viewTask", "manageConfig"}

  predicate Live(rows: map<Jti, Row>, j: Jti) { j in rows && rows[j].revokedAt.None? }

  predicate LockedByOther(s: State, tx: TxId, j: Jti) {
    exists t :: t in s.txs && t != tx && j in s.txs[t].revokes
  }

  /* ---------- statements ---------- */

  /** UPDATE sessions SET revoked_at = at WHERE id = jti AND revoked_at IS NULL. */
  function Revoking(rows: map<Jti, Row>, t: Tx, jti: Jti, at: int): Tx {
    if Hits(rows, t, jti) then t.(revokes := t.revokes[jti := at]) else t
  }

  /** The row count of that statement is one. */
  predicate Hits(rows: map<Jti, Row>, t: Tx, jti: Jti) { Live(rows, jti) && jti !in t.revokes }

  /** SETEX with the remaining lifetime, skipped when that is less than a second. */
  function Deny(denied: map<Jti, int>, jti: Jti, exp: int, at: int): map<Jti, int> {
    var ttl := RemainingSeconds(exp, at);
    if ttl > 0 then denied[jti := at + ttl * SECOND] else denied
  }

  /** The request goes on from `stage`. */
  function RevokeSession(s: State, tx: TxId, jti: Jti, exp: int, at: int, stage: Stage): State
    requires tx in s.txs
  {
    s.(txs := s.txs[tx := Revoking(s.rows, s.txs[tx], jti, at).(stage := stage)],
       denied := Deny(s.denied, jti, exp, at),
       revoked := s.revoked[jti := exp])
  }

  /** Whom a request issues tokens to, and what its access token may do: a refresh passes no permissions on. */
  datatype Issue = Issue(user: UserId, org: Option<OrgId>, perms: set<Permission>, cause: Cause)

  function IssueOf(job: Job): Issue
    requires !job.LogoutJob?
  {
    match job
    case LoginJob(u, org, perms) => Issue(u, org, perms, ByLogin)
    case SwitchJob(c, org, perms) => Issue(c.user, Some(org), perms, BySwitch)
    case RefreshJob(c) => Issue(c.user, c.org, {}, ByRotation(c.jti))
  }

  function NewTokens(i: Issue, accessJti: Jti, refreshJti: Jti, at: int): set<Claims> {
    {Encode(i.user, i.org, i.perms, accessJti, ACCESS_TTL, Access, at),
     Encode(i.user, i.org, {}, refreshJti, REFRESH_TTL, Refresh, at)}
  }

  function Inserting(t: Tx, i: Issue, refreshJti: Jti, serial: nat, at: int): Tx {
    t.(inserts := t.inserts[refreshJti := Row(i.user, at, at + REFRESH_TTL, None, i.org, i.cause, serial)])
  }

  function IssueTokens(s: State, tx: TxId, i: Issue, accessJti: Jti, refreshJti: Jti, at: int): State
    requires tx in s.txs
  {
    s.(minted := s.minted + NewTokens(i, accessJti, refreshJti, at),
       used := s.used + {accessJti, refreshJti},
       txs := s.txs[tx := Inserting(s.txs[tx], i, refreshJti, |s.used|, at).(stage := Done)])
  }

  function Advance(s: State, tx: TxId, stage: Stage): State
    requires tx in s.txs
  {
    s.(txs := s.txs[tx := s.txs[tx].(stage := stage)])
  }

  /* ---------- the steps of the requests ---------- */

  datatype Event =
    | Begin(at: int, tx: TxId, job: Job)                         // checks and reads of a request
    | First(at: int, tx: TxId)                                   // its first write
    | Second(at: int, tx: TxId, accessJti: Jti, refreshJti: Jti) // its second write
    | Commit(at: int, tx: TxId)
    | Rollback(at: int, tx: TxId)                                // an exception or a crash, at any point
    | MintKey(at: int, key: KeyId, caller: Credential, scope: set<Permission>, expiresAt: Option<int>)
    | RevokeKey(at: int, key: KeyId)
    | SetMemberships(at: int, memberships: map<(UserId, OrgId), set<Permission>>)

  /** A login through an identity provider (perms empty) may have no organization; a password login reads a profile. */
  predicate MayBegin(s: State, job: Job, at: int) {
    match job
    case LoginJob(u, org, perms) =>
      perms == {} || (org.Some? && (u, org.value) in s.memberships && s.memberships[(u, org.value)] == perms)
    case SwitchJob(c, org, perms) =>
      Accepts(s, Token(c), at) && (c.user, org) in s.memberships && s.memberships[(c.user, org)] == perms
    case RefreshJob(c) => Decodes(s, c, at) && c.typ == Refresh && !IsDenied(s, c.jti, at)
    case LogoutJob(c, cookie) => Accepts(s, Token(c), at)
  }

  function GrantsOf(job: Job, at: int): set<Grant> {
    match job
    case LoginJob(u, Some(o), perms) => {Grant(u, o, perms, at)}
    case SwitchJob(c, o, perms) => {Grant(c.user, o, perms, at)}
    case _ => {}
  }

  /** The jti whose row the next write of a request updates, if there is one. */
  function Target(s: State, e: Event): Option<Jti>
    requires (e.First? || e.Second?) && e.tx in s.txs
  {
    match (e, s.txs[e.tx].job)
    case (First(_, _), RefreshJob(c)) => Some(c.jti)
    case (First(_, _), SwitchJob(c, _, _)) => Some(c.jti)
    case (First(_, _), LogoutJob(c, _)) => Some(c.jti)
    case (Second(_, _, _, _), LogoutJob(_, Some(cookie))) =>
      if Decodes(s, cookie, e.at) then Some(cookie.jti) else None
    case _ => None
  }

  predicate Unblocked(s: State, e: Event)
    requires (e.First? || e.Second?) && e.tx in s.txs
  {
    Target(s, e).Some? ==> !LockedByOther(s, e.tx, Target(s, e).value)
  }

  predicate Enabled(s: State, e: Event) {
    s.now <= e.at &&
    match e
    case Begin(at, tx, job) => tx !in s.txs && MayBegin(s, job, at)
    case First(_, tx) => tx in s.txs && s.txs[tx].stage == Checked && Unblocked(s, e)
    case Second(_, tx, aj, rj) =>
      tx in s.txs && s.txs[tx].stage == Halfway && aj !in s.used && rj !in s.used && aj != rj && Unblocked(s, e)
    case Commit(_, tx) => tx in s.txs && s.txs[tx].stage == Done
    case Rollback(_, tx) => tx in s.txs
    case MintKey(at, k, caller, scope, _) =>
      k !in s.keys && Accepts(s, caller, at) && scope <= CATALOG && scope <= PermissionsOf(s, caller)
    case RevokeKey(_, k) => k in s.keys && s.keys[k].revokedAt.None?
    case SetMemberships(_, _) => true
  }

  function ApplyFirst(s: State, tx: TxId, at: int): (s': State)
    requires tx in s.txs
    ensures s' == s.(txs := s'.txs, denied := s'.denied, revoked := s'.revoked)
  {
    match s.txs[tx].job
    case LoginJob(_, _, _) => Advance(s, tx, Halfway)
    case RefreshJob(c) =>
      if Hits(s.rows, s.txs[tx], c.jti)
      then s.(txs := s.txs[tx := Revoking(s.rows, s.txs[tx], c.jti, at).(stage := Halfway)])
      else s.(txs := s.txs - {tx})  // 401: the transaction rolls back
    case SwitchJob(c, _, _) => RevokeSession(s, tx, c.jti, c.exp, at, Halfway)
    case LogoutJob(c, _) => RevokeSession(s, tx, c.jti, c.exp, at, Halfway)
  }

  function ApplySecond(s: State, tx: TxId, aj: Jti, rj: Jti, at: int): (s': State)
    requires tx in s.txs
    ensures s.txs[tx].job.LogoutJob? ==> s' == s.(txs := s'.txs, denied := s'.denied, revoked := s'.revoked)
    ensures !s.txs[tx].job.LogoutJob? ==>
              s' == s.(txs := s'.txs, minted := s.minted + NewTokens(IssueOf(s.txs[tx].job), aj, rj, at),
                       used := s.used + {aj, rj})
  {
    match s.txs[tx].job
    case LogoutJob(_, cookie) =>
      if cookie.Some? && Decodes(s, cookie.value, at)
      then RevokeSession(s, tx, cookie.value.jti, cookie.value.exp, at, Done)
      else Advance(s, tx, Done)
    case job => IssueTokens(s, tx, IssueOf(job), aj, rj, at)
  }

  function CommittedRows(rows: map<Jti, Row>, t: Tx): map<Jti, Row> {
    (map j | j in rows :: if j in t.revokes then rows[j].(revokedAt := Some(t.revokes[j])) else rows[j]) + t.inserts
  }

  function Counted(y: Tally, t: Tx): Tally {
    match t.job
    case LoginJob(_, _, _) => y.(logins := y.logins + 1)
    case SwitchJob(_, _, _) => y.(switches := y.switches + 1)
    case RefreshJob(_) => y.(rotations := y.rotations + 1)
    case LogoutJob(_, _) => y.(loggedOut := y.loggedOut + |t.revokes|)
  }

  function Apply(s: State, e: Event): State
    requires Enabled(s, e)
  {
    var s := s.(now := e.at);
    match e
    case Begin(at, tx, job) =>
      s.(txs := s.txs[tx := Tx(job, Checked, map[], map[])], grants := s.grants + GrantsOf(job, at))
    case First(at, tx) => ApplyFirst(s, tx, at)
    case Second(at, tx, aj, rj) => ApplySecond(s, tx, aj, rj, at)
    case Commit(_, tx) =>
      var t := s.txs[tx];
      s.(rows := CommittedRows(s.rows, t), txs := s.txs - {tx}, tally := Counted(s.tally, t))
    case Rollback(_, tx) => s.(txs := s.txs - {tx})
    case MintKey(_, k, caller, scope, expiresAt) =>
      s.(keys := s.keys[k := ApiKey(UserOf(s, caller), scope, expiresAt, None, caller, OriginOf(s, caller))])
    case RevokeKey(at, k) => s.(keys := s.keys[k := s.keys[k].(revokedAt := Some(at))])
    case SetMemberships(_, m) => s.(memberships := m)
  }

  ghost predicate IsRun(s: State, events: seq<Event>, s': State)
    decreases |events|
  {
    if events == [] then s' == s
    else Enabled(s, events[0]) && IsRun(Apply(s, events[0]), events[1..], s')
  }

  /* ---------- what every reachable state satisfies ---------- */

  ghost predicate TokensOk(minted: set<Claims>, used: set<Jti>) {
    && (forall c :: c in minted ==> c.jti in used)
    && (forall c, d :: c in minted && d in minted && c.jti == d.jti ==> c == d)
  }

  /** The token with the jti of a session row is the refresh token issued with it. */
  ghost predicate Describes(minted: set<Claims>, used: set<Jti>, j: Jti, row: Row) {
    && j in used && row.serial < |used|
    && forall c :: c in minted && c.jti == j ==> c.typ == Refresh && c.user == row.user && c.org == row.org
  }

  ghost predicate RowsOk(minted: set<Claims>, used: set<Jti>, rows: map<Jti, Row>) {
    forall j :: j in rows ==> Describes(minted, used, j, rows[j])
  }

  /** A rotated row is revoked, has one successor, and the successor has the same user and organization. */
  ghost predicate ChainsOk(rows: map<Jti, Row>) {
    && (forall j :: j in rows && rows[j].cause.ByRotation? ==> FollowsParent(rows, rows[j]))
    && (forall j, k :: j in rows && k in rows && rows[j].cause.ByRotation? && rows[j].cause == rows[k].cause ==> j == k)
  }

  ghost predicate FollowsParent(rows: map<Jti, Row>, row: Row)
    requires row.cause.ByRotation?
  {
    var p := row.cause.parent;
    && p in rows && rows[p].revokedAt.Some?
    && rows[p].user == row.user && rows[p].org == row.org && rows[p].serial < row.serial
  }

  ghost predicate JobOk(minted: set<Claims>, job: Job) {
    match job
    case LoginJob(_, _, _) => true
    case SwitchJob(c, _, _) => c in minted && c.typ == Access
    case RefreshJob(c) => c in minted && c.typ == Refresh
    case LogoutJob(c, _) => c in minted && c.typ == Access
  }

  ghost predicate CauseOk(rows: map<Jti, Row>, job: Job, row: Row) {
    if job.RefreshJob? then
      && row.cause == ByRotation(job.claims.jti) && job.claims.jti in rows
      && row.user == job.claims.user && row.org == job.claims.org
      && rows[job.claims.jti].serial < row.serial
    else row.cause == if job.LoginJob? then ByLogin else BySwitch
  }

  ghost predicate InsertsOk(minted: set<Claims>, used: set<Jti>, rows: map<Jti, Row>, t: Tx) {
    && (t.stage != Done || t.job.LogoutJob? ==> t.inserts.Keys == {})
    && (t.stage == Done && !t.job.LogoutJob? ==> |t.inserts.Keys| == 1)
    && (forall j, k :: j in t.inserts && k in t.inserts ==> j == k)
    && (forall j :: j in t.inserts ==>
          && Describes(minted, used, j, t.inserts[j]) && j !in rows && t.inserts[j].revokedAt == None
          && CauseOk(rows, t.job, t.inserts[j]))
  }

  ghost predicate RevokesOk(rows: map<Jti, Row>, t: Tx) {
    && (forall j :: j in t.revokes ==> Live(rows, j))
    && (t.job.LoginJob? || t.job.SwitchJob? ==> t.revokes.Keys == {})
    && (t.job.RefreshJob? ==> t.revokes.Keys == if t.stage == Checked then {} else {t.job.claims.jti})
  }

  ghost predicate TxOk(minted: set<Claims>, used: set<Jti>, rows: map<Jti, Row>, t: Tx) {
    JobOk(minted, t.job) && InsertsOk(minted, used, rows, t) && RevokesOk(rows, t)
  }

  /** Two open transactions insert different rows and hold locks on different rows. */
  ghost predicate Separate(t: Tx, u: Tx) {
    t.inserts.Keys !! u.inserts.Keys && t.revokes.Keys !! u.revokes.Keys
  }

  ghost predicate SessionsOk(minted: set<Claims>, used: set<Jti>, rows: map<Jti, Row>, txs: map<TxId, Tx>) {
    && TokensOk(minted, used) && RowsOk(minted, used, rows) && ChainsOk(rows)
    && (forall i :: i in txs ==> TxOk(minted, used, rows, txs[i]))
    && (forall i, k :: i in txs && k in txs && i != k ==> Separate(txs[i], txs[k]))
  }

  ghost predicate Consistent(s: State) { SessionsOk(s.minted, s.used, s.rows, s.txs) }

  lemma ReplaceTx(s: State, tx: TxId, t: Tx)
    requires Consistent(s) && TxOk(s.minted, s.used, s.rows, t)
    requires forall i :: i in s.txs && i != tx ==> Separate(t, s.txs[i])
    ensures SessionsOk(s.minted, s.used, s.rows, s.txs[tx := t])
  {
  }

  lemma BeginKeeps(s: State, e: Event)
    requires Consistent(s) && Enabled(s, e) && e.Begin?
    ensures Consistent(Apply(s, e))
  {
    ReplaceTx(s, e.tx, Tx(e.job, Checked, map[], map[]));
  }

  /** An access token never names a session row, so only a refresh or the cookie of a logout revokes one. */
  lemma RevokingKeeps(minted: set<Claims>, used: set<Jti>, rows: map<Jti, Row>, t: Tx, jti: Jti, at: int, stage: Stage)
    requires TxOk(minted, used, rows, t) && RowsOk(minted, used, rows)
    requires t.job.LogoutJob?
          || (t.job.SwitchJob? && jti == t.job.caller.jti && t.stage != Done && stage != Done)
          || (t.job.RefreshJob? && jti == t.job.claims.jti && t.stage == Checked && stage == Halfway
             && Hits(rows, t, jti))
    ensures TxOk(minted, used, rows, Revoking(rows, t, jti, at).(stage := stage))
  {
    assert forall j :: j in rows ==> Describes(minted, used, j, rows[j]);
  }

  lemma RevokingSeparates(s: State, tx: TxId, jti: Jti, at: int, stage: Stage)
    requires Consistent(s) && tx in s.txs && !LockedByOther(s, tx, jti)
    ensures forall i :: i in s.txs && i != tx ==>
              Separate(Revoking(s.rows, s.txs[tx], jti, at).(stage := stage), s.txs[i])
  {
  }

  lemma RevokeKeeps(s: State, tx: TxId, jti: Jti, at: int, stage: Stage)
    requires Consistent(s) && tx in s.txs && !LockedByOther(s, tx, jti)
    requires var t := s.txs[tx];
             || t.job.LogoutJob?
             || (t.job.SwitchJob? && jti == t.job.caller.jti && t.stage != Done && stage != Done)
             || (t.job.RefreshJob? && jti == t.job.claims.jti && t.stage == Checked && stage == Halfway
                && Hits(s.rows, t, jti))
    ensures SessionsOk(s.minted, s.used, s.rows, s.txs[tx := Revoking(s.rows, s.txs[tx], jti, at).(stage := stage)])
  {
    RevokingKeeps(s.minted, s.used, s.rows, s.txs[tx], jti, at, stage);
    RevokingSeparates(s, tx, jti, at, stage);
    ReplaceTx(s, tx, Revoking(s.rows, s.txs[tx], jti, at).(stage := stage));
  }

  lemma FirstKeeps(s: State, e: Event)
    requires Consistent(s) && Enabled(s, e) && e.First?
    ensures Consistent(Apply(s, e))
  {
    var t := s.txs[e.tx];
    match t.job {
      case LoginJob(_, _, _) => ReplaceTx(s, e.tx, t.(stage := Halfway));
      case RefreshJob(c) => FirstOf(s, e, c);
      case SwitchJob(c, _, _) => FirstOf(s, e, c);
      case LogoutJob(c, _) => FirstOf(s, e, c);
    }
  }

  lemma FirstOf(s: State, e: Event, c: Claims)
    requires Consistent(s) && Enabled(s, e) && e.First? && Target(s, e) == Some(c.jti)
    ensures Consistent(Apply(s, e))
  {
    var t := s.txs[e.tx];
    if t.job.RefreshJob? && !Hits(s.rows, t, c.jti) {
      return;
    }
    RevokeKeeps(s, e.tx, c.jti, e.at, Halfway);
    assert Apply(s, e).txs == s.txs[e.tx := Revoking(s.rows, t, c.jti, e.at).(stage := Halfway)];
  }

  /** Drawing two new jtis and signing their tokens disturbs nothing that was there before. */
  lemma IssueLeavesOthers(minted: set<Claims>, used: set<Jti>, rows: map<Jti, Row>, t: Tx, signed: set<Claims>,
                          jtis: set<Jti>)
    requires TxOk(minted, used, rows, t) && jtis !! used
    requires forall c :: c in signed ==> c.jti in jtis
    ensures TxOk(minted + signed, used + jtis, rows, t)
  {
    SubsetSize(used, used + jtis);
  }

  lemma IssueLeavesRows(minted: set<Claims>, used: set<Jti>, rows: map<Jti, Row>, signed: set<Claims>, jtis: set<Jti>)
    requires RowsOk(minted, used, rows) && jtis !! used
    requires forall c :: c in signed ==> c.jti in jtis
    ensures RowsOk(minted + signed, used + jtis, rows)
  {
    SubsetSize(used, used + jtis);
  }

  lemma {:induction false} SubsetSize<T>(a: set<T>, b: set<T>)
    requires a <= b
    ensures |a| <= |b| && (a < b ==> |a| < |b|)
  {
    assert |b| == |a| + |b - a| by { assert b == a + (b - a); }
    if a < b {
      assert b - a != {};
    }
  }

  lemma SecondKeeps(s: State, e: Event)
    requires Consistent(s) && Enabled(s, e) && e.Second?
    ensures Consistent(Apply(s, e))
  {
    hide SessionsOk, IssueOf, Revoking, Inserting, NewTokens, LockedByOther;
    var t := s.txs[e.tx];
    if !t.job.LogoutJob? {
      IssueKeeps(s, e.tx, e.accessJti, e.refreshJti, e.at);
    } else if t.job.cookie.Some? && Decodes(s, t.job.cookie.value, e.at) {
      LogoutSecondKeeps(s, e, t.job.cookie.value);
    } else {
      StageKeeps(s, e.tx);
    }
  }

  lemma StageKeeps(s: State, tx: TxId)
    requires Consistent(s) && tx in s.txs && s.txs[tx].job.LogoutJob?
    ensures Consistent(s.(txs := s.txs[tx := s.txs[tx].(stage := Done)]))
  {
    ReplaceTx(s, tx, s.txs[tx].(stage := Done));
  }

  lemma LogoutSecondKeeps(s: State, e: Event, cookie: Claims)
    requires Consistent(s) && Enabled(s, e) && e.Second? && Decodes(s, cookie, e.at)
    requires s.txs[e.tx].job.LogoutJob? && s.txs[e.tx].job.cookie == Some(cookie)
    ensures Consistent(Apply(s, e))
  {
    assert Target(s, e) == Some(cookie.jti);
    RevokeKeeps(s, e.tx, cookie.jti, e.at, Done);
    assert Apply(s, e).txs == s.txs[e.tx := Revoking(s.rows, s.txs[e.tx], cookie.jti, e.at).(stage := Done)];
  }

  lemma IssueKeeps(s: State, tx: TxId, aj: Jti, rj: Jti, at: int)
    requires Consistent(s) && tx in s.txs && s.txs[tx].stage == Halfway && !s.txs[tx].job.LogoutJob?
    requires aj !in s.used && rj !in s.used && aj != rj
    ensures Consistent(IssueTokens(s, tx, IssueOf(s.txs[tx].job), aj, rj, at))
  {
    var t := s.txs[tx];
    var i := IssueOf(t.job);
    var minted', used' := s.minted + NewTokens(i, aj, rj, at), s.used + {aj, rj};
    var t' := Inserting(t, i, rj, |s.used|, at).(stage := Done);
    NewTokensOk(s.minted, s.used, i, aj, rj, at);
    IssueLeavesAll(s, NewTokens(i, aj, rj, at), {aj, rj});
    InsertingKeeps(s.minted, s.used, s.rows, t, aj, rj, at);
    IssuedIsSeparate(s, tx, t', rj);
    ReplaceTx(s.(minted := minted', used := used'), tx, t');
  }

  lemma NewTokensOk(minted: set<Claims>, used: set<Jti>, i: Issue, aj: Jti, rj: Jti, at: int)
    requires TokensOk(minted, used) && aj !in used && rj !in used && aj != rj
    ensures TokensOk(minted + NewTokens(i, aj, rj, at), used + {aj, rj})
  {
  }

  lemma IssueLeavesAll(s: State, signed: set<Claims>, jtis: set<Jti>)
    requires Consistent(s) && jtis !! s.used && TokensOk(s.minted + signed, s.used + jtis)
    requires forall c :: c in signed ==> c.jti in jtis
    ensures Consistent(s.(minted := s.minted + signed, used := s.used + jtis))
  {
    IssueLeavesRows(s.minted, s.used, s.rows, signed, jtis);
    forall k | k in s.txs
      ensures TxOk(s.minted + signed, s.used + jtis, s.rows, s.txs[k])
    {
      IssueLeavesOthers(s.minted, s.used, s.rows, s.txs[k], signed, jtis);
    }
  }

  lemma InsertingKeeps(minted: set<Claims>, used: set<Jti>, rows: map<Jti, Row>, t: Tx, aj: Jti, rj: Jti, at: int)
    requires TokensOk(minted, used) && RowsOk(minted, used, rows) && TxOk(minted, used, rows, t)
    requires t.stage == Halfway && !t.job.LogoutJob? && aj !in used && rj !in used && aj != rj
    ensures TxOk(minted + NewTokens(IssueOf(t.job), aj, rj, at), used + {aj, rj}, rows,
                 Inserting(t, IssueOf(t.job), rj, |used|, at).(stage := Done))
  {
    var i := IssueOf(t.job);
    var minted', used' := minted + NewTokens(i, aj, rj, at), used + {aj, rj};
    var t' := Inserting(t, i, rj, |used|, at).(stage := Done);
    SubsetSize(used, used');
    assert t'.inserts.Keys == {rj};
    if t.job.RefreshJob? {
      ParentOfRefresh(minted, used, rows, t);
    }
    assert Describes(minted', used', rj, t'.inserts[rj]);
    assert CauseOk(rows, t.job, t'.inserts[rj]);
  }

  /** While a refresh holds the lock on the row it revokes, that row is live and is the one its token names. */
  lemma ParentOfRefresh(minted: set<Claims>, used: set<Jti>, rows: map<Jti, Row>, t: Tx)
    requires RowsOk(minted, used, rows) && TxOk(minted, used, rows, t) && t.job.RefreshJob? && t.stage != Checked
    ensures var p := t.job.claims.jti;
            && p in t.revokes && Live(rows, p)
            && rows[p].user == t.job.claims.user && rows[p].org == t.job.claims.org && rows[p].serial < |used|
  {
    var p := t.job.claims.jti;
    assert p in t.revokes.Keys;
    assert Live(rows, p);
    assert Describes(minted, used, p, rows[p]);
  }

  lemma IssuedIsSeparate(s: State, tx: TxId, t: Tx, rj: Jti)
    requires Consistent(s) && tx in s.txs && rj !in s.used
    requires t.inserts.Keys <= s.txs[tx].inserts.Keys + {rj} && t.revokes == s.txs[tx].revokes
    ensures forall i :: i in s.txs && i != tx ==> Separate(t, s.txs[i])
  {
    forall i | i in s.txs && i != tx
      ensures Separate(t, s.txs[i])
    {
      assert Separate(s.txs[tx], s.txs[i]);
      assert TxOk(s.minted, s.used, s.rows, s.txs[i]);
    }
  }

  lemma CommitKeeps(s: State, e: Event)
    requires Consistent(s) && Enabled(s, e) && e.Commit?
    ensures Consistent(Apply(s, e))
  {
    var t := s.txs[e.tx];
    var rows := CommittedRows(s.rows, t);
    CommitKeepsRows(s.minted, s.used, s.rows, t);
    CommitKeepsChains(s.minted, s.used, s.rows, t);
    forall i | i in s.txs && i != e.tx
      ensures TxOk(s.minted, s.used, rows, s.txs[i])
    {
      assert Separate(t, s.txs[i]);
      CommitKeepsOther(s.minted, s.used, s.rows, t, s.txs[i]);
    }
  }

  lemma CommitKeepsRows(minted: set<Claims>, used: set<Jti>, rows: map<Jti, Row>, t: Tx)
    requires RowsOk(minted, used, rows) && TxOk(minted, used, rows, t)
    ensures RowsOk(minted, used, CommittedRows(rows, t))
  {
  }

  /** The transaction that commits the second write of a refresh holds the lock on the parent, so the parent
      was live until now and no other row can have it as its parent. */
  lemma CommitKeepsChains(minted: set<Claims>, used: set<Jti>, rows: map<Jti, Row>, t: Tx)
    requires RowsOk(minted, used, rows) && ChainsOk(rows) && TxOk(minted, used, rows, t) && t.stage == Done
    ensures ChainsOk(CommittedRows(rows, t))
  {
    var rows' := CommittedRows(rows, t);
    forall j | j in rows' && rows'[j].cause.ByRotation?
      ensures FollowsParent(rows', rows'[j])
    {
      CommitKeepsParent(minted, used, rows, t, j);
    }
    if t.job.RefreshJob? {
      ParentOfRefresh(minted, used, rows, t);
    }
    forall j, k | j in rows' && k in rows' && rows'[j].cause.ByRotation? && rows'[j].cause == rows'[k].cause
      ensures j == k
    {
      NewParentIsNew(rows, t, j, k);
      NewParentIsNew(rows, t, k, j);
    }
  }

  lemma CommitKeepsParent(minted: set<Claims>, used: set<Jti>, rows: map<Jti, Row>, t: Tx, j: Jti)
    requires RowsOk(minted, used, rows) && ChainsOk(rows) && TxOk(minted, used, rows, t) && t.stage == Done
    requires j in CommittedRows(rows, t) && CommittedRows(rows, t)[j].cause.ByRotation?
    ensures FollowsParent(CommittedRows(rows, t), CommittedRows(rows, t)[j])
  {
    if j in t.inserts {
      assert CauseOk(rows, t.job, t.inserts[j]);
      ParentOfRefresh(minted, used, rows, t);
      assert t.job.claims.jti !in t.inserts;
    } else {
      assert FollowsParent(rows, rows[j]);
      assert rows[j].cause.parent !in t.inserts;
    }
  }

  lemma NewParentIsNew(rows: map<Jti, Row>, t: Tx, j: Jti, k: Jti)
    requires ChainsOk(rows) && (forall i :: i in t.inserts ==> CauseOk(rows, t.job, t.inserts[i]))
    requires t.job.RefreshJob? ==> Live(rows, t.job.claims.jti)
    ensures j in t.inserts && t.inserts[j].cause.ByRotation? && k in rows && k !in t.inserts
            ==> t.inserts[j].cause != rows[k].cause
  {
    if k in rows && rows[k].cause.ByRotation? {
      assert FollowsParent(rows, rows[k]);
    }
  }

  lemma CommitKeepsOther(minted: set<Claims>, used: set<Jti>, rows: map<Jti, Row>, t: Tx, u: Tx)
    requires TxOk(minted, used, rows, t) && TxOk(minted, used, rows, u) && Separate(t, u)
    ensures TxOk(minted, used, CommittedRows(rows, t), u)
  {
    var rows' := CommittedRows(rows, t);
    forall j | j in u.revokes
      ensures Live(rows', j)
    {
      assert Live(rows, j) && j !in t.revokes;
    }
    assert forall j :: j in u.inserts ==> j !in rows';
  }

  lemma StepKeepsConsistent(s: State, e: Event)
    requires Consistent(s) && Enabled(s, e)
    ensures Consistent(Apply(s, e))
  {
    match e {
      case Begin(_, _, _) => BeginKeeps(s, e);
      case First(_, _) => FirstKeeps(s, e);
      case Second(_, _, _, _) => SecondKeeps(s, e);
      case Commit(_, _) => CommitKeeps(s, e);
      case _ =>
    }
  }

  lemma {:induction false} RunKeepsConsistent(s: State, events: seq<Event>, s': State)
    requires Consistent(s) && IsRun(s, events, s')
    ensures Consistent(s')
    decreases |events|
  {
    if events != [] {
      StepKeepsConsistent(s, events[0]);
      RunKeepsConsistent(Apply(s, events[0]), events[1..], s');
    }
  }

  /* ---------- rotation ---------- */

  ghost function Successors(rows: map<Jti, Row>, p: Jti): set<Jti> {
    set j | j in rows && rows[j].cause == ByRotation(p)
  }

  predicate RotatesNow(s: State, e: Event, p: Jti) {
    e.Commit? && e.tx in s.txs && s.txs[e.tx].job.RefreshJob? && s.txs[e.tx].job.claims.jti == p
  }

  /** How many refreshes presenting the refresh token `p` commit in a run. */
  ghost function Rotations(s: State, events: seq<Event>, p: Jti): nat
    decreases |events|
  {
    if events == [] || !Enabled(s, events[0]) then 0
    else (if RotatesNow(s, events[0], p) then 1 else 0) + Rotations(Apply(s, events[0]), events[1..], p)
  }

  lemma OnlyCommitsChangeRows(s: State, e: Event)
    requires Enabled(s, e)
    ensures e.Commit? ==> && Apply(s, e).rows == CommittedRows(s.rows, s.txs[e.tx])
                          && Apply(s, e).tally == Counted(s.tally, s.txs[e.tx])
    ensures !e.Commit? ==> Apply(s, e).rows == s.rows && Apply(s, e).tally == s.tally
  {
  }

  lemma StepAddsSuccessor(s: State, e: Event, p: Jti)
    requires Consistent(s) && Enabled(s, e)
    ensures |Successors(Apply(s, e).rows, p)| == |Successors(s.rows, p)| + if RotatesNow(s, e, p) then 1 else 0
  {
    OnlyCommitsChangeRows(s, e);
    if e.Commit? {
      CommitAddsSuccessor(s.minted, s.used, s.rows, s.txs[e.tx], p);
    }
  }

  lemma CommitAddsSuccessor(minted: set<Claims>, used: set<Jti>, rows: map<Jti, Row>, t: Tx, p: Jti)
    requires TxOk(minted, used, rows, t) && t.stage == Done
    ensures |Successors(CommittedRows(rows, t), p)|
            == |Successors(rows, p)| + if t.job.RefreshJob? && t.job.claims.jti == p then 1 else 0
  {
    assert t.inserts.Keys !! rows.Keys;
    if t.job.RefreshJob? && t.job.claims.jti == p {
      assert forall j :: j in t.inserts ==> CauseOk(rows, t.job, t.inserts[j]);
      AllInserted(rows, t, p);
      DisjointSize(Successors(rows, p), t.inserts.Keys);
    } else {
      assert forall j :: j in t.inserts ==> CauseOk(rows, t.job, t.inserts[j]);
      NoneInserted(rows, t, p);
    }
  }

  lemma AllInserted(rows: map<Jti, Row>, t: Tx, p: Jti)
    requires t.inserts.Keys !! rows.Keys && forall j :: j in t.inserts ==> t.inserts[j].cause == ByRotation(p)
    ensures Successors(CommittedRows(rows, t), p) == Successors(rows, p) + t.inserts.Keys
  {
  }

  lemma DisjointSize<T>(a: set<T>, b: set<T>)
    requires a !! b
    ensures |a + b| == |a| + |b|
  {
  }

  lemma NoneInserted(rows: map<Jti, Row>, t: Tx, p: Jti)
    requires t.inserts.Keys !! rows.Keys && forall j :: j in t.inserts ==> t.inserts[j].cause != ByRotation(p)
    ensures Successors(CommittedRows(rows, t), p) == Successors(rows, p)
  {
  }

  lemma {:induction false} RotationsAreSuccessors(s: State, events: seq<Event>, s': State, p: Jti)
    requires Consistent(s) && IsRun(s, events, s')
    ensures |Successors(s'.rows, p)| == |Successors(s.rows, p)| + Rotations(s, events, p)
    decreases |events|
  {
    if events != [] {
      StepKeepsConsistent(s, events[0]);
      StepAddsSuccessor(s, events[0], p);
      RotationsAreSuccessors(Apply(s, events[0]), events[1..], s', p);
    }
  }

  lemma AtMostOneElement<T>(a: set<T>)
    requires forall x, y :: x in a && y in a ==> x == y
    ensures |a| <= 1
  {
    if a != {} {
      var x :| x in a;
      assert a == {x};
    }
  }

  /** However many requests present the same refresh cookie and however they interleave, one rotation commits. */
  lemma SingleRotation(events: seq<Event>, s: State, p: Jti)
    requires IsRun(Start, events, s)
    ensures Rotations(Start, events, p) <= 1
  {
    RunKeepsConsistent(Start, events, s);
    RotationsAreSuccessors(Start, events, s, p);
    AtMostOneElement(Successors(s.rows, p));
  }

  /* ---------- chains of rotations ---------- */

  /** The login or organization switch a session descends from. */
  ghost function Root(rows: map<Jti, Row>, j: Jti): Jti
    requires ChainsOk(rows) && j in rows
    decreases rows[j].serial
  {
    if rows[j].cause.ByRotation? then
      assert FollowsParent(rows, rows[j]);
      Root(rows, rows[j].cause.parent)
    else j
  }

  ghost function Depth(rows: map<Jti, Row>, j: Jti): nat
    requires ChainsOk(rows) && j in rows
    decreases rows[j].serial
  {
    if rows[j].cause.ByRotation? then
      assert FollowsParent(rows, rows[j]);
      1 + Depth(rows, rows[j].cause.parent)
    else 0
  }

  lemma {:induction false} RootHasSameOwner(rows: map<Jti, Row>, j: Jti)
    requires ChainsOk(rows) && j in rows
    ensures Root(rows, j) in rows && !rows[Root(rows, j)].cause.ByRotation?
    ensures rows[Root(rows, j)].user == rows[j].user && rows[Root(rows, j)].org == rows[j].org
    decreases rows[j].serial
  {
    if rows[j].cause.ByRotation? {
      assert FollowsParent(rows, rows[j]);
      RootHasSameOwner(rows, rows[j].cause.parent);
    }
  }

  lemma {:induction false} SameDepth(rows: map<Jti, Row>, j: Jti, k: Jti)
    requires ChainsOk(rows) && j in rows && k in rows
    requires Root(rows, j) == Root(rows, k) && Depth(rows, j) == Depth(rows, k)
    ensures j == k
    decreases rows[j].serial
  {
    if rows[j].cause.ByRotation? {
      assert FollowsParent(rows, rows[j]) && FollowsParent(rows, rows[k]);
      SameDepth(rows, rows[j].cause.parent, rows[k].cause.parent);
    }
  }

  lemma {:induction false} EarlierIsRevoked(rows: map<Jti, Row>, j: Jti, k: Jti)
    requires ChainsOk(rows) && j in rows && k in rows
    requires Root(rows, j) == Root(rows, k) && Depth(rows, j) < Depth(rows, k)
    ensures rows[j].revokedAt.Some?
    decreases rows[k].serial
  {
    assert FollowsParent(rows, rows[k]);
    var p := rows[k].cause.parent;
    if Depth(rows, j) == Depth(rows, p) {
      SameDepth(rows, j, p);
    } else {
      EarlierIsRevoked(rows, j, p);
    }
  }

  /** In every reachable state a login or switch has at most one live session descending from it,
      and that session belongs to the same user and organization. */
  lemma OneLiveSessionPerLogin(events: seq<Event>, s: State, j: Jti, k: Jti)
    requires IsRun(Start, events, s)
    requires Live(s.rows, j) && Live(s.rows, k)
    ensures ChainsOk(s.rows)
    ensures Root(s.rows, j) == Root(s.rows, k) ==> j == k
    ensures var r := Root(s.rows, j);
            r in s.rows && s.rows[r].user == s.rows[j].user && s.rows[r].org == s.rows[j].org
  {
    RunKeepsConsistent(Start, events, s);
    RootHasSameOwner(s.rows, j);
    if Root(s.rows, j) == Root(s.rows, k) {
      if Depth(s.rows, j) < Depth(s.rows, k) {
        EarlierIsRevoked(s.rows, j, k);
      } else if Depth(s.rows, k) < Depth(s.rows, j) {
        EarlierIsRevoked(s.rows, k, j);
      } else {
        SameDepth(s.rows, j, k);
      }
    }
  }

  /* ---------- conservation ---------- */

  ghost function LiveSet(rows: map<Jti, Row>): set<Jti> { set j | j in rows && rows[j].revokedAt.None? }

  ghost predicate Balanced(s: State) {
    |LiveSet(s.rows)| + s.tally.loggedOut == s.tally.logins + s.tally.switches
  }

  lemma CommitMovesLive(rows: map<Jti, Row>, t: Tx)
    requires t.revokes.Keys <= LiveSet(rows) && t.inserts.Keys !! rows.Keys
    requires forall j :: j in t.inserts ==> t.inserts[j].revokedAt == None
    ensures |LiveSet(CommittedRows(rows, t))| == |LiveSet(rows)| - |t.revokes.Keys| + |t.inserts.Keys|
  {
    var kept := LiveSet(rows) - t.revokes.Keys;
    assert LiveSet(rows) == kept + t.revokes.Keys;
    LiveAfterCommit(rows, t);
    DisjointSize(kept, t.revokes.Keys);
    DisjointSize(kept, t.inserts.Keys);
  }

  lemma LiveAfterCommit(rows: map<Jti, Row>, t: Tx)
    requires t.inserts.Keys !! rows.Keys && forall j :: j in t.inserts ==> t.inserts[j].revokedAt == None
    ensures LiveSet(CommittedRows(rows, t)) == LiveSet(rows) - t.revokes.Keys + t.inserts.Keys
  {
  }

  lemma StepKeepsBalance(s: State, e: Event)
    requires Consistent(s) && Enabled(s, e) && Balanced(s)
    ensures Balanced(Apply(s, e))
  {
    OnlyCommitsChangeRows(s, e);
    if e.Commit? {
      CommitBalances(s.minted, s.used, s.rows, s.txs[e.tx], s.tally);
    }
  }

  lemma CommitBalances(minted: set<Claims>, used: set<Jti>, rows: map<Jti, Row>, t: Tx, y: Tally)
    requires TxOk(minted, used, rows, t) && t.stage == Done
    requires |LiveSet(rows)| + y.loggedOut == y.logins + y.switches
    ensures var y' := Counted(y, t); |LiveSet(CommittedRows(rows, t))| + y'.loggedOut == y'.logins + y'.switches
  {
    assert forall j :: j in t.revokes ==> Live(rows, j);
    CommitMovesLive(rows, t);
    assert |t.revokes| == |t.revokes.Keys|;
    if t.job.RefreshJob? {
      assert |t.revokes.Keys| == |{t.job.claims.jti}|;
    }
  }

  lemma {:induction false} RunKeepsBalance(s: State, events: seq<Event>, s': State)
    requires Consistent(s) && Balanced(s) && IsRun(s, events, s')
    ensures Balanced(s')
    decreases |events|
  {
    if events != [] {
      StepKeepsConsistent(s, events[0]);
      StepKeepsBalance(s, events[0]);
      RunKeepsBalance(Apply(s, events[0]), events[1..], s');
    }
  }

  /** Live sessions are the logins and switches committed so far, less the rows committed logouts revoked:
      rotation conserves their number, and a switch leaves the session it was called from alive. */
  lemma LiveSessionsConserved(events: seq<Event>, s: State)
    requires IsRun(Start, events, s)
    ensures |LiveSet(s.rows)| == s.tally.logins + s.tally.switches - s.tally.loggedOut
  {
    RunKeepsBalance(Start, events, s);
  }

  /* ---------- where authority comes from ---------- */

  /** A permission set that some grant to the same user and organization carried as a whole. */
  ghost predicate Backed(grants: set<Grant>, user: UserId, org: Option<OrgId>, perms: set<Permission>) {
    perms == {} || exists g :: g in grants && g.user == user && Some(g.org) == org && g.perms == perms
  }

  ghost predicate JobBacked(grants: set<Grant>, job: Job) {
    !job.LogoutJob? ==> Backed(grants, IssueOf(job).user, IssueOf(job).org, IssueOf(job).perms)
  }

  ghost predicate KeyBacked(s: State, k: ApiKey) {
    && k.origin in s.minted && k.user == k.origin.user && k.scope <= k.origin.perms
    && match k.mintedWith
       case Token(c) => k.origin == c
       case Key(p) => p in s.keys && k.origin == s.keys[p].origin && k.scope <= s.keys[p].scope
  }

  ghost predicate AuthorityOk(s: State) {
    && (forall c :: c in s.minted ==> Backed(s.grants, c.user, c.org, c.perms))
    && (forall t :: t in s.txs ==> JobBacked(s.grants, s.txs[t].job))
    && (forall k :: k in s.keys ==> KeyBacked(s, s.keys[k]))
  }

  lemma IssueKeepsTokensBacked(minted: set<Claims>, grants: set<Grant>, i: Issue, aj: Jti, rj: Jti, at: int)
    requires forall c :: c in minted ==> Backed(grants, c.user, c.org, c.perms)
    requires Backed(grants, i.user, i.org, i.perms)
    ensures forall c :: c in minted + NewTokens(i, aj, rj, at) ==> Backed(grants, c.user, c.org, c.perms)
  {
  }

  lemma MoreGrants(g: set<Grant>, g': set<Grant>, user: UserId, org: Option<OrgId>, perms: set<Permission>)
    requires g <= g'
    ensures Backed(g, user, org, perms) ==> Backed(g', user, org, perms)
  {
  }

  lemma BeginKeepsAuthority(s: State, e: Event)
    requires Enabled(s, e) && AuthorityOk(s) && e.Begin?
    ensures AuthorityOk(Apply(s, e))
  {
    var s' := Apply(s, e);
    forall c | c in s.minted
      ensures Backed(s'.grants, c.user, c.org, c.perms)
    {
      MoreGrants(s.grants, s'.grants, c.user, c.org, c.perms);
    }
    forall t | t in s'.txs
      ensures JobBacked(s'.grants, s'.txs[t].job)
    {
      if t == e.tx {
        NewJobBacked(s, e.job, e.at);
      } else if !s.txs[t].job.LogoutJob? {
        var i := IssueOf(s.txs[t].job);
        MoreGrants(s.grants, s'.grants, i.user, i.org, i.perms);
      }
    }
    assert forall k :: k in s.keys ==> KeyBacked(s', s.keys[k]);
  }

  lemma NewJobBacked(s: State, job: Job, at: int)
    requires MayBegin(s, job, at)
    ensures JobBacked(s.grants + GrantsOf(job, at), job)
  {
    if job.LoginJob? && job.perms != {} {
      assert Grant(job.user, job.org.value, job.perms, at) in GrantsOf(job, at);
    }
    if job.SwitchJob? {
      assert Grant(job.caller.user, job.target, job.perms, at) in GrantsOf(job, at);
    }
  }

  lemma FirstFrame(s: State, e: Event)
    requires Enabled(s, e) && e.First?
    ensures var s' := Apply(s, e);
            s'.grants == s.grants && s'.keys == s.keys && s'.minted == s.minted && s'.used == s.used && s'.now == e.at
  {
  }

  lemma SecondFrame(s: State, e: Event)
    requires Enabled(s, e) && e.Second?
    ensures var s' := Apply(s, e); s'.grants == s.grants && s'.keys == s.keys && s'.now == e.at
    ensures s.txs[e.tx].job.LogoutJob? ==> Apply(s, e).minted == s.minted && Apply(s, e).used == s.used
    ensures !s.txs[e.tx].job.LogoutJob? ==>
              && Apply(s, e).minted == s.minted + NewTokens(IssueOf(s.txs[e.tx].job), e.accessJti, e.refreshJti, e.at)
              && Apply(s, e).used == s.used + {e.accessJti, e.refreshJti}
  {
  }

  /** A write replaces the record of its own transaction, which keeps its job, or drops it. */
  ghost predicate KeepsJobs(s: State, s': State, tx: TxId) {
    || s'.txs == s.txs - {tx}
    || (exists t: Tx :: tx in s.txs && t.job == s.txs[tx].job && s'.txs == s.txs[tx := t])
  }

  lemma FirstKeepsJobs(s: State, e: Event)
    requires Enabled(s, e) && e.First?
    ensures KeepsJobs(s, Apply(s, e), e.tx)
  {
    var s', t := Apply(s, e), s.txs[e.tx];
    match t.job {
      case LoginJob(_, _, _) => assert s'.txs == s.txs[e.tx := t.(stage := Halfway)];
      case SwitchJob(c, _, _) => assert s'.txs == s.txs[e.tx := Revoking(s.rows, t, c.jti, e.at).(stage := Halfway)];
      case LogoutJob(c, _) => assert s'.txs == s.txs[e.tx := Revoking(s.rows, t, c.jti, e.at).(stage := Halfway)];
      case RefreshJob(c) =>
        if Hits(s.rows, t, c.jti) {
          assert s'.txs == s.txs[e.tx := Revoking(s.rows, t, c.jti, e.at).(stage := Halfway)];
        }
    }
  }

  lemma SecondKeepsJobs(s: State, e: Event)
    requires Enabled(s, e) && e.Second?
    ensures KeepsJobs(s, Apply(s, e), e.tx)
  {
    var s', t := Apply(s, e), s.txs[e.tx];
    if !t.job.LogoutJob? {
      assert s'.txs == s.txs[e.tx := Inserting(t, IssueOf(t.job), e.refreshJti, |s.used|, e.at).(stage := Done)];
    } else if t.job.cookie.Some? && Decodes(s, t.job.cookie.value, e.at) {
      assert s'.txs == s.txs[e.tx := Revoking(s.rows, t, t.job.cookie.value.jti, e.at).(stage := Done)];
    } else {
      assert s'.txs == s.txs[e.tx := t.(stage := Done)];
    }
  }

  lemma WriteKeepsAuthority(s: State, e: Event)
    requires Enabled(s, e) && AuthorityOk(s) && (e.First? || e.Second?)
    ensures AuthorityOk(Apply(s, e))
  {
    if e.First? {
      FirstFrame(s, e);
      FirstKeepsJobs(s, e);
    } else {
      SecondFrame(s, e);
      SecondKeepsJobs(s, e);
    }
    if e.Second? && !s.txs[e.tx].job.LogoutJob? {
      IssueKeepsTokensBacked(s.minted, s.grants, IssueOf(s.txs[e.tx].job), e.accessJti, e.refreshJti, e.at);
    }
    assert forall k :: k in s.keys ==> KeyBacked(s, s.keys[k]);
  }

  lemma KeyStepsKeepAuthority(s: State, e: Event)
    requires Enabled(s, e) && AuthorityOk(s) && (e.MintKey? || e.RevokeKey?)
    ensures AuthorityOk(Apply(s, e))
  {
    var s' := Apply(s, e);
    assert forall k :: k in s.keys ==>
      k in s'.keys && s'.keys[k].scope == s.keys[k].scope && s'.keys[k].user == s.keys[k].user
      && s'.keys[k].origin == s.keys[k].origin && s'.keys[k].mintedWith == s.keys[k].mintedWith;
    forall k | k in s'.keys
      ensures KeyBacked(s', s'.keys[k])
    {
      assert k in s.keys ==> KeyBacked(s, s.keys[k]);
    }
  }

  lemma StepKeepsAuthority(s: State, e: Event)
    requires Enabled(s, e) && AuthorityOk(s)
    ensures AuthorityOk(Apply(s, e))
  {
    match e {
      case Begin(_, _, _) => BeginKeepsAuthority(s, e);
      case First(_, _) => WriteKeepsAuthority(s, e);
      case Second(_, _, _, _) => WriteKeepsAuthority(s, e);
      case MintKey(_, _, _, _, _) => KeyStepsKeepAuthority(s, e);
      case RevokeKey(_, _) => KeyStepsKeepAuthority(s, e);
      case _ => assert forall k :: k in s.keys ==> KeyBacked(Apply(s, e), s.keys[k]);
    }
  }

  lemma {:induction false} RunKeepsAuthority(s: State, events: seq<Event>, s': State)
    requires AuthorityOk(s) && IsRun(s, events, s')
    ensures AuthorityOk(s')
    decreases |events|
  {
    if events != [] {
      StepKeepsAuthority(s, events[0]);
      RunKeepsAuthority(Apply(s, events[0]), events[1..], s');
    }
  }

  /** The state a run is in before its i-th event. */
  ghost function StateAt(s: State, events: seq<Event>, i: nat): State
    decreases i
  {
    if i == 0 || events == [] || !Enabled(s, events[0]) then s else StateAt(Apply(s, events[0]), events[1..], i - 1)
  }

  /** Some login or switch of the run read this profile from the membership table as it then was. */
  ghost predicate ProfileWasRead(s: State, events: seq<Event>, g: Grant) {
    exists i :: 0 <= i < |events| && ReadsProfile(StateAt(s, events, i), events[i], g)
  }

  ghost predicate ReadsProfile(s: State, e: Event, g: Grant) {
    && e.Begin? && e.at == g.at && (e.job.LoginJob? || e.job.SwitchJob?)
    && (g.user, g.org) in s.memberships && s.memberships[(g.user, g.org)] == g.perms
  }

  lemma GrantWasRead(s: State, e: Event, g: Grant)
    requires Enabled(s, e) && g in Apply(s, e).grants && g !in s.grants && g.perms != {}
    ensures ReadsProfile(s, e, g)
  {
    if e.First? {
      FirstFrame(s, e);
    } else if e.Second? {
      SecondFrame(s, e);
    }
    assert e.Begin? && g in GrantsOf(e.job, e.at);
  }

  lemma {:induction false} GrantsWereRead(s: State, events: seq<Event>, s': State, g: Grant)
    requires IsRun(s, events, s') && g in s'.grants && g !in s.grants && g.perms != {}
    ensures ProfileWasRead(s, events, g)
    decreases |events|
  {
    if events == [] {
      assert false;
    } else {
      var s1 := Apply(s, events[0]);
      if g in s1.grants {
        GrantWasRead(s, events[0], g);
        assert ReadsProfile(StateAt(s, events, 0), events[0], g);
      } else {
        GrantsWereRead(s1, events[1..], s', g);
        var i :| 0 <= i < |events[1..]| && ReadsProfile(StateAt(s1, events[1..], i), events[1..][i], g);
        assert StateAt(s, events, i + 1) == StateAt(s1, events[1..], i) && events[i + 1] == events[1..][i];
      }
    }
  }

  /** Every token's permissions are exactly those its user's profile in its organization had when some earlier
      login or switch read it; a token from a refresh has none. */
  lemma TokenAuthority(events: seq<Event>, s: State, c: Claims)
    requires IsRun(Start, events, s) && c in s.minted && c.perms != {}
    ensures exists g: Grant ::
              && g.user == c.user && Some(g.org) == c.org && g.perms == c.perms
              && ProfileWasRead(Start, events, g)
  {
    RunKeepsAuthority(Start, events, s);
    assert Backed(s.grants, c.user, c.org, c.perms);
    var g :| g in s.grants && g.user == c.user && Some(g.org) == c.org && g.perms == c.perms;
    GrantsWereRead(Start, events, s, g);
  }

  /** The same holds of API keys, minted with tokens or with other keys: the profile of the token it all began with
      covers the whole scope; and a key minted with a key is never wider than it. */
  lemma KeyAuthority(events: seq<Event>, s: State, k: KeyId)
    requires IsRun(Start, events, s) && k in s.keys && s.keys[k].scope != {}
    ensures exists g: Grant ::
              && g.user == s.keys[k].user && Some(g.org) == s.keys[k].origin.org && s.keys[k].scope <= g.perms
              && ProfileWasRead(Start, events, g)
    ensures s.keys[k].origin in s.minted
    ensures match s.keys[k].mintedWith
            case Token(c) => s.keys[k].origin == c
            case Key(p) => && p in s.keys && s.keys[k].origin == s.keys[p].origin
                           && s.keys[k].scope <= s.keys[p].scope && s.keys[k].user == s.keys[p].user
  {
    RunKeepsAuthority(Start, events, s);
    assert KeyBacked(s, s.keys[k]);
    var c := s.keys[k].origin;
    assert Backed(s.grants, c.user, c.org, c.perms);
    var g :| g in s.grants && g.user == c.user && Some(g.org) == c.org && g.perms == c.perms;
    GrantsWereRead(Start, events, s, g);
    match s.keys[k].mintedWith {
      case Token(_) =>
      case Key(p) => assert KeyBacked(s, s.keys[p]);
    }
  }

  /** A key of the user with this scope, that began with a token of organization `origin`. */
  ghost predicate HasKey(s: State, k: KeyId, user: UserId, origin: OrgId, scope: set<Permission>) {
    k in s.keys && s.keys[k].user == user && s.keys[k].scope == scope && s.keys[k].origin.org == Some(origin)
  }

  /** A profile of the user in the organization the key acts in, read in the run, has the key's whole scope. */
  ghost predicate ActsWithinProfile(events: seq<Event>, s: State, k: KeyId, defaultOrg: Option<OrgId>) {
    && k in s.keys
    && exists g: Grant ::
         && g.user == s.keys[k].user && Some(g.org) == ActsIn(Key(k), defaultOrg) && s.keys[k].scope <= g.perms
         && ProfileWasRead(Start, events, g)
  }

  /** A key acts in the default organization its user then has, whatever organization its scope comes from: that a
      profile of the organization it acts in covers the scope is certain exactly when the two are the same. */
  lemma KeyActsWithinProfileExactlyWhen(user: UserId, origin: OrgId, defaultOrg: Option<OrgId>, scope: set<Permission>)
    requires scope != {} && scope <= CATALOG
    ensures defaultOrg == Some(origin)
            <==> forall events, s, k ::
                   IsRun(Start, events, s) && HasKey(s, k, user, origin, scope)
                   ==> ActsWithinProfile(events, s, k, defaultOrg)
  {
    if defaultOrg == Some(origin) {
      forall events, s, k | IsRun(Start, events, s) && HasKey(s, k, user, origin, scope)
        ensures ActsWithinProfile(events, s, k, defaultOrg)
      {
        KeyAuthority(events, s, k);
      }
    } else {
      var events, s := KeyCarriesProfile(user, origin, defaultOrg, scope);
    }
  }

  lemma StepThenRun(s: State, e: Event, events: seq<Event>, s': State)
    requires Enabled(s, e) && IsRun(Apply(s, e), events, s')
    ensures IsRun(s, [e] + events, s')
  {
    assert ([e] + events)[1..] == events;
  }

  /** Log in to one organization and mint a key: with another default organization it carries the scope over there. */
  lemma KeyCarriesProfile(user: UserId, origin: OrgId, defaultOrg: Option<OrgId>, scope: set<Permission>)
    returns (events: seq<Event>, s: State)
    requires scope != {} && scope <= CATALOG && defaultOrg != Some(origin)
    ensures IsRun(Start, events, s) && HasKey(s, 0, user, origin, scope)
    ensures !ActsWithinProfile(events, s, 0, defaultOrg)
  {
    var start := SetMemberships(0, map[(user, origin) := scope]);
    var begin := Begin(0, 0, LoginJob(user, Some(origin), scope));
    var s1 := Apply(Start, start);
    var s2 := Apply(s1, begin);
    var rest;
    rest, s := LoginAndMint(s2, user, origin, scope);
    events := [start] + ([begin] + rest);
    hide IsRun;
    StepThenRun(s1, begin, rest, s);
    StepThenRun(Start, start, [begin] + rest, s);
    assert StateAt(Start, events, 1) == s1 by {
      assert events[0] == start && events[1..] == [begin] + rest;
      assert StateAt(s1, [begin] + rest, 0) == s1;
    }
    assert forall i :: 1 < i < |events| ==> events[i] == rest[i - 2];
    forall g: Grant | ProfileWasRead(Start, events, g)
      ensures g.org == origin
    {
      var i :| 0 <= i < |events| && ReadsProfile(StateAt(Start, events, i), events[i], g);
      assert i == 1;
    }
  }

  /** The rest of a login that has read its profile, and a key minted with its access token. */
  lemma LoginAndMint(s2: State, user: UserId, origin: OrgId, scope: set<Permission>)
    returns (events: seq<Event>, s: State)
    requires s2.now == 0 && s2.used == {} && s2.keys == map[] && s2.denied == map[] && scope <= CATALOG
    requires s2.txs == map[0 := Tx(LoginJob(user, Some(origin), scope), Checked, map[], map[])]
    ensures IsRun(s2, events, s) && HasKey(s, 0, user, origin, scope)
    ensures forall i :: 0 <= i < |events| ==> !events[i].Begin?
  {
    hide IsRun, Apply, Enabled, HasKey;
    var s4 := LoginSigns(s2, user, origin, scope);
    s := CommitAndMint(s4, user, origin, scope);
    var first, second, commit := First(0, 0), Second(0, 0, 0, 1), Commit(0, 0);
    var mint := MintKey(0, 0, Token(AccessOf(user, origin, scope)), scope, None);
    StepThenRun(Apply(s2, first), second, [commit] + [mint], s);
    StepThenRun(s2, first, [second] + ([commit] + [mint]), s);
    events := [first] + ([second] + ([commit] + [mint]));
    assert events == [first, second, commit, mint];
  }

  function AccessOf(user: UserId, origin: OrgId, scope: set<Permission>): Claims {
    Encode(user, Some(origin), scope, 0, ACCESS_TTL, Access, 0)
  }

  lemma LoginSigns(s2: State, user: UserId, origin: OrgId, scope: set<Permission>) returns (s4: State)
    requires s2.now == 0 && s2.used == {} && s2.keys == map[] && s2.denied == map[]
    requires s2.txs == map[0 := Tx(LoginJob(user, Some(origin), scope), Checked, map[], map[])]
    ensures var first, second := First(0, 0), Second(0, 0, 0, 1);
            Enabled(s2, first) && Enabled(Apply(s2, first), second) && s4 == Apply(Apply(s2, first), second)
    ensures s4.now == 0 && s4.keys == map[] && s4.denied == map[] && AccessOf(user, origin, scope) in s4.minted
    ensures 0 in s4.txs && s4.txs[0].stage == Done
  {
    s4 := Apply(Apply(s2, First(0, 0)), Second(0, 0, 0, 1));
  }

  lemma CommitAndMint(s4: State, user: UserId, origin: OrgId, scope: set<Permission>) returns (s: State)
    requires s4.now == 0 && s4.keys == map[] && s4.denied == map[] && AccessOf(user, origin, scope) in s4.minted
    requires 0 in s4.txs && s4.txs[0].stage == Done && scope <= CATALOG
    ensures var mint := MintKey(0, 0, Token(AccessOf(user, origin, scope)), scope, None);
            IsRun(s4, [Commit(0, 0)] + [mint], s) && HasKey(s, 0, user, origin, scope)
  {
    var mint := MintKey(0, 0, Token(AccessOf(user, origin, scope)), scope, None);
    var s5 := Apply(s4, Commit(0, 0));
    s := Apply(s5, mint);
    assert IsRun(s, [], s);
    hide IsRun;
    StepThenRun(s5, mint, [], s);
    assert [mint] + [] == [mint];
    StepThenRun(s4, Commit(0, 0), [mint], s);
  }

  /* ---------- how long a revoked token is refused ---------- */

  /** Less than a second of the token's life is left. */
  predicate Expiring(exp: int, at: int) { at > (exp - 1) * SECOND }

  ghost predicate DenialOk(s: State) {
    && (forall j :: j in s.revoked ==> DeniedUntilExpiring(s, j))
    && (forall c :: c in s.minted && c.jti in s.revoked ==> s.revoked[c.jti] == c.exp)
    && (forall j :: j in s.revoked ==> j in s.used)
  }

  ghost predicate DeniedUntilExpiring(s: State, j: Jti)
    requires j in s.revoked
  {
    Expiring(s.revoked[j], s.now) || (j in s.denied && Expiring(s.revoked[j], s.denied[j]))
  }

  lemma DenyReachesLastSecond(denied: map<Jti, int>, jti: Jti, exp: int, at: int)
    ensures Expiring(exp, at) || (jti in Deny(denied, jti, exp, at) && Expiring(exp, Deny(denied, jti, exp, at)[jti]))
    ensures forall j :: j != jti ==> (j in denied <==> j in Deny(denied, jti, exp, at))
    ensures forall j :: j != jti && j in denied ==> Deny(denied, jti, exp, at)[j] == denied[j]
  {
  }

  lemma RevokeKeepsDenial(s: State, s': State, c: Claims)
    requires DenialOk(s) && c in s.minted && TokensOk(s.minted, s.used)
    requires s'.now == s.now && s'.minted == s.minted && s'.used == s.used
    requires s'.revoked == s.revoked[c.jti := c.exp] && s'.denied == Deny(s.denied, c.jti, c.exp, s.now)
    ensures DenialOk(s')
  {
    DenyReachesLastSecond(s.denied, c.jti, c.exp, s.now);
    forall j | j in s'.revoked
      ensures DeniedUntilExpiring(s', j)
    {
      if j != c.jti {
        assert DeniedUntilExpiring(s, j);
      }
    }
  }

  lemma LaterKeepsDenial(s: State, at: int)
    requires DenialOk(s) && s.now <= at
    ensures DenialOk(s.(now := at))
  {
    var s' := s.(now := at);
    forall j | j in s'.revoked
      ensures DeniedUntilExpiring(s', j)
    {
      assert DeniedUntilExpiring(s, j);
    }
  }

  lemma FirstKeepsDenial(s: State, tx: TxId, at: int)
    requires DenialOk(s) && TokensOk(s.minted, s.used) && tx in s.txs && JobOk(s.minted, s.txs[tx].job) && s.now == at
    ensures DenialOk(ApplyFirst(s, tx, at))
  {
    hide DenialOk, TokensOk;
    var s' := ApplyFirst(s, tx, at);
    match s.txs[tx].job {
      case SwitchJob(c, _, _) => RevokeKeepsDenial(s, s', c);
      case LogoutJob(c, _) => RevokeKeepsDenial(s, s', c);
      case LoginJob(_, _, _) => SameDenial(s, s');
      case RefreshJob(_) => SameDenial(s, s');
    }
  }

  lemma SameDenial(s: State, s': State)
    requires DenialOk(s) && s'.now == s.now && s'.denied == s.denied && s'.revoked == s.revoked
    requires s'.minted == s.minted && s'.used == s.used
    ensures DenialOk(s')
  {
    assert forall j :: j in s.revoked ==> DeniedUntilExpiring(s, j);
  }

  lemma SecondKeepsDenial(s: State, tx: TxId, aj: Jti, rj: Jti, at: int)
    requires DenialOk(s) && TokensOk(s.minted, s.used) && tx in s.txs && s.now == at
    requires aj !in s.used && rj !in s.used
    ensures DenialOk(ApplySecond(s, tx, aj, rj, at))
  {
    hide DenialOk, TokensOk;
    if s.txs[tx].job.LogoutJob? {
      LogoutKeepsDenial(s, tx, aj, rj, at);
    } else {
      var signed := NewTokens(IssueOf(s.txs[tx].job), aj, rj, at);
      IssueKeepsDenial(s, ApplySecond(s, tx, aj, rj, at), signed, {aj, rj});
    }
  }

  lemma LogoutKeepsDenial(s: State, tx: TxId, aj: Jti, rj: Jti, at: int)
    requires DenialOk(s) && TokensOk(s.minted, s.used) && tx in s.txs && s.txs[tx].job.LogoutJob? && s.now == at
    ensures DenialOk(ApplySecond(s, tx, aj, rj, at))
  {
    var cookie, s' := s.txs[tx].job.cookie, ApplySecond(s, tx, aj, rj, at);
    if cookie.Some? && Decodes(s, cookie.value, at) {
      RevokeKeepsDenial(s, s', cookie.value);
    } else {
      SameDenial(s, s');
    }
  }

  lemma IssueKeepsDenial(s: State, s': State, signed: set<Claims>, jtis: set<Jti>)
    requires DenialOk(s) && s'.now == s.now && s'.denied == s.denied && s'.revoked == s.revoked
    requires s'.minted == s.minted + signed && s'.used == s.used + jtis && jtis !! s.used
    requires forall c :: c in signed ==> c.jti in jtis
    ensures DenialOk(s')
  {
    assert forall j :: j in s.revoked ==> DeniedUntilExpiring(s, j);
  }

  lemma StepKeepsDenial(s: State, e: Event)
    requires Consistent(s) && Enabled(s, e) && DenialOk(s)
    ensures DenialOk(Apply(s, e))
  {
    hide DenialOk, TokensOk, RowsOk, ChainsOk, Separate, InsertsOk, RevokesOk, ApplyFirst, ApplySecond, CommittedRows;
    LaterKeepsDenial(s, e.at);
    if e.First? {
      assert TxOk(s.minted, s.used, s.rows, s.txs[e.tx]);
      FirstKeepsDenial(s.(now := e.at), e.tx, e.at);
    } else if e.Second? {
      SecondKeepsDenial(s.(now := e.at), e.tx, e.accessJti, e.refreshJti, e.at);
    } else {
      SameDenial(s.(now := e.at), Apply(s, e));
    }
  }

  lemma {:induction false} RunKeepsDenial(s: State, events: seq<Event>, s': State)
    requires Consistent(s) && DenialOk(s) && IsRun(s, events, s')
    ensures DenialOk(s')
    decreases |events|
  {
    if events != [] {
      StepKeepsConsistent(s, events[0]);
      StepKeepsDenial(s, events[0]);
      RunKeepsDenial(Apply(s, events[0]), events[1..], s');
    }
  }

  /** Once revoke_session has been called for a token, in whatever run, no later request bearing it is accepted
      (nor any later refresh with it begun) until less than a second of its life is left. */
  lemma RevokedTokenIsRefused(events: seq<Event>, s: State, c: Claims, at: int)
    requires IsRun(Start, events, s) && s.now <= at && c in s.minted && c.jti in s.revoked
    requires Accepts(s, Token(c), at) || MayBegin(s, RefreshJob(c), at)
    ensures c.exp * SECOND - SECOND < at < c.exp * SECOND
  {
    RunKeepsDenial(Start, events, s);
    assert DeniedUntilExpiring(s, c.jti);
  }

  /** What being denied means: the jti of a token revoked with a second or more to live is denied up to the last whole
      second counted from the revocation, and not beyond; with less to live, it is denied only if it was before; and
      no other jti is touched. */
  lemma DeniedExactlyUntil(s: State, tx: TxId, jti: Jti, exp: int, now: int, stage: Stage, other: Jti, at: int)
    requires tx in s.txs && other != jti
    ensures var s', left := RevokeSession(s, tx, jti, exp, now, stage), exp * SECOND - now;
            && (IsDenied(s', jti, at) <==>
                  if left >= SECOND then at < exp * SECOND - left % SECOND else IsDenied(s, jti, at))
            && (IsDenied(s', other, at) <==> IsDenied(s, other, at))
  {
    var left := exp * SECOND - now;
    assert left == left / SECOND * SECOND + left % SECOND;
  }

  /** When that last second can be used: the first revocation of a live token leaves a gap exactly when it
      happens off a whole second of the clock. */
  lemma GapExactlyOffTheSecond(s: State, tx: TxId, c: Claims, now: int, stage: Stage)
    requires tx in s.txs && c in s.minted && c.typ == Access && c.jti !in s.denied
    ensures (exists at :: now <= at && Accepts(RevokeSession(s, tx, c.jti, c.exp, now, stage), Token(c), at))
            <==> now < c.exp * SECOND && now % SECOND != 0
  {
    var s' := RevokeSession(s, tx, c.jti, c.exp, now, stage);
    if now < c.exp * SECOND && now % SECOND != 0 {
      assert Accepts(s', Token(c), c.exp * SECOND - 1);
    }
    if now < c.exp * SECOND && now % SECOND == 0 {
      assert s'.denied[c.jti] == c.exp * SECOND;
    }
  }

  /* ---------- the endpoints, each request running without interruption ---------- */

  datatype AuthError =
    | InvalidCredentials | InvitePending | AccountLocked | NoOrganization
    | TokenInvalid  // raised by the JWT library, and not caught by the refresh endpoint: an internal error
    | NotARefreshToken | RefreshRevoked | TokenRevoked
    | NotAMember | UnknownPermissions | ScopeExceedsCaller | MalformedJti | KeyNotFound

  datatype UserStatus = Active | PendingInvite | Locked

  lemma StepKeepsKeyRevoked(s: State, e: Event, k: KeyId)
    requires Enabled(s, e) && k in s.keys && s.keys[k].revokedAt.Some?
    ensures k in Apply(s, e).keys && Apply(s, e).keys[k].revokedAt.Some?
  {
    if e.First? {
      FirstFrame(s, e);
    } else if e.Second? {
      SecondFrame(s, e);
    }
  }

  /** A revoked key is refused for good. */
  lemma {:induction false} RevokedKeyIsRefused(s: State, events: seq<Event>, s': State, k: KeyId, at: int)
    requires IsRun(s, events, s') && k in s.keys && s.keys[k].revokedAt.Some?
    ensures k in s'.keys && !Accepts(s', Key(k), at)
    decreases |events|
  {
    hide Apply, Enabled;
    if events != [] {
      StepKeepsKeyRevoked(s, events[0], k);
      RevokedKeyIsRefused(Apply(s, events[0]), events[1..], s', k, at);
    }
  }

  /** No open transaction has written the row: an UPDATE of it need not wait. */
  ghost predicate Unlocked(s: State, j: Jti) { forall t :: t in s.txs ==> j !in s.txs[t].revokes }

  /** A run of the four steps of one uninterrupted request. */
  ghost predicate IsRequest(s: State, tx: TxId, job: Job, aj: Jti, rj: Jti, at: int, s': State) {
    IsRun(s, [Begin(at, tx, job), First(at, tx), Second(at, tx, aj, rj), Commit(at, tx)], s')
  }

  lemma FourSteps(s0: State, s1: State, s2: State, s3: State, s4: State, tx: TxId, job: Job, aj: Jti, rj: Jti, at: int)
    requires Enabled(s0, Begin(at, tx, job)) && s1 == Apply(s0, Begin(at, tx, job))
    requires Enabled(s1, First(at, tx)) && s2 == Apply(s1, First(at, tx))
    requires Enabled(s2, Second(at, tx, aj, rj)) && s3 == Apply(s2, Second(at, tx, aj, rj))
    requires Enabled(s3, Commit(at, tx)) && s4 == Apply(s3, Commit(at, tx))
    ensures IsRequest(s0, tx, job, aj, rj, at, s4)
  {
    var e1, e2, e3, e4 := Begin(at, tx, job), First(at, tx), Second(at, tx, aj, rj), Commit(at, tx);
    assert IsRun(s4, [], s4);
    assert [e4][1..] == [] && IsRun(s3, [e4], s4);
    assert [e3, e4][1..] == [e4] && IsRun(s2, [e3, e4], s4);
    assert [e2, e3, e4][1..] == [e3, e4] && IsRun(s1, [e2, e3, e4], s4);
    assert [e1, e2, e3, e4][1..] == [e2, e3, e4];
  }

  /* ---------- what a request hands out ---------- */

  ghost predicate Reachable(s: State) { exists events :: IsRun(Start, events, s) }

  lemma RevokedAreDenied(s: State, tx: TxId, jti: Jti, exp: int, at: int, stage: Stage)
    requires tx in s.txs && s.denied.Keys <= s.revoked.Keys
    ensures var s' := RevokeSession(s, tx, jti, exp, at, stage); s'.denied.Keys <= s'.revoked.Keys
  {
  }

  lemma FirstDenies(s: State, tx: TxId, at: int)
    requires tx in s.txs && s.denied.Keys <= s.revoked.Keys
    ensures var s' := ApplyFirst(s, tx, at); s'.denied.Keys <= s'.revoked.Keys
  {
    hide Deny, Hits;
    match s.txs[tx].job {
      case SwitchJob(c, _, _) => RevokedAreDenied(s, tx, c.jti, c.exp, at, Halfway);
      case LogoutJob(c, _) => RevokedAreDenied(s, tx, c.jti, c.exp, at, Halfway);
      case _ =>
    }
  }

  lemma SecondDenies(s: State, tx: TxId, aj: Jti, rj: Jti, at: int)
    requires tx in s.txs && s.denied.Keys <= s.revoked.Keys
    ensures var s' := ApplySecond(s, tx, aj, rj, at); s'.denied.Keys <= s'.revoked.Keys
  {
    hide Deny, Hits;
    match s.txs[tx].job {
      case LogoutJob(_, cookie) =>
        if cookie.Some? && Decodes(s, cookie.value, at) {
          RevokedAreDenied(s, tx, cookie.value.jti, cookie.value.exp, at, Done);
        }
      case _ =>
    }
  }

  lemma StepDeniesRevoked(s: State, e: Event)
    requires Enabled(s, e) && s.denied.Keys <= s.revoked.Keys
    ensures var s' := Apply(s, e); s'.denied.Keys <= s'.revoked.Keys
  {
    hide ApplyFirst, ApplySecond, CommittedRows;
    match e {
      case First(at, tx) => FirstDenies(s.(now := at), tx, at);
      case Second(at, tx, aj, rj) => SecondDenies(s.(now := at), tx, aj, rj, at);
      case _ =>
    }
  }

  /** Only what was revoked is denied. */
  lemma {:induction false} RunDeniesRevoked(s: State, events: seq<Event>, s': State)
    requires IsRun(s, events, s') && s.denied.Keys <= s.revoked.Keys
    ensures s'.denied.Keys <= s'.revoked.Keys
    decreases |events|
  {
    if events != [] {
      StepDeniesRevoked(s, events[0]);
      hide Apply, Enabled;
      RunDeniesRevoked(Apply(s, events[0]), events[1..], s');
    }
  }

  /** A jti not yet drawn is not denied. */
  lemma NewIsNotDenied(s: State, jti: Jti)
    requires Reachable(s) && jti !in s.used
    ensures jti !in s.denied && forall c :: c in s.minted ==> c.jti != jti
  {
    hide IsRun;
    var events :| IsRun(Start, events, s);
    RunDeniesRevoked(Start, events, s);
    RunKeepsDenial(Start, events, s);
    RunKeepsConsistent(Start, events, s);
  }

  /** The first token authenticates its user in the organization with these permissions for 15 minutes, in whole
      seconds; the second one refreshes, and nothing else, for 14 days, and has a live session row. */
  ghost predicate PairWorks(s: State, pair: (Claims, Claims), user: UserId, org: Option<OrgId>, perms: set<Permission>,
                            at: int) {
    && Authenticates(s, pair.0, user, org, perms, at) && Refreshes(s, pair.1, user, org, at)
    && Live(s.rows, pair.1.jti)
    && var row := s.rows[pair.1.jti];
       row.user == user && row.org == org && row.issuedAt == at && row.expiresAt == at + 1_209_600_000_000
  }

  ghost predicate Authenticates(s: State, c: Claims, user: UserId, org: Option<OrgId>, perms: set<Permission>,
                                at: int) {
    && c.user == user && ActsIn(Token(c), None) == org && c.perms == perms && Accepts(s, Token(c), at)
    && (forall later :: at <= later <= at + 899_000_000 ==> Accepts(s, Token(c), later))
    && (forall later :: later >= at + 900_000_000 ==> !Accepts(s, Token(c), later))
    && (forall later :: !MayBegin(s, RefreshJob(c), later))
  }

  ghost predicate Refreshes(s: State, c: Claims, user: UserId, org: Option<OrgId>, at: int) {
    && c.user == user && c.org == org && c.perms == {} && MayBegin(s, RefreshJob(c), at)
    && (forall later :: at <= later <= at + 1_209_599_000_000 ==> MayBegin(s, RefreshJob(c), later))
    && (forall later :: later >= at + 1_209_600_000_000 ==> !MayBegin(s, RefreshJob(c), later))
    && (forall later :: !Accepts(s, Token(c), later))
  }

  lemma SignedAuthenticates(s: State, user: UserId, org: Option<OrgId>, perms: set<Permission>, jti: Jti, at: int)
    requires Encode(user, org, perms, jti, ACCESS_TTL, Access, at) in s.minted && jti !in s.denied
    ensures Authenticates(s, Encode(user, org, perms, jti, ACCESS_TTL, Access, at), user, org, perms, at)
  {
  }

  lemma SignedRefreshes(s: State, user: UserId, org: Option<OrgId>, jti: Jti, at: int)
    requires Encode(user, org, {}, jti, REFRESH_TTL, Refresh, at) in s.minted && jti !in s.denied
    ensures Refreshes(s, Encode(user, org, {}, jti, REFRESH_TTL, Refresh, at), user, org, at)
  {
  }

  lemma RequestSteps(s: State, tx: TxId, job: Job, aj: Jti, rj: Jti, at: int, s': State)
    returns (s1: State, s2: State, s3: State)
    requires IsRequest(s, tx, job, aj, rj, at, s')
    ensures Enabled(s, Begin(at, tx, job)) && s1 == Apply(s, Begin(at, tx, job))
    ensures Enabled(s1, First(at, tx)) && s2 == Apply(s1, First(at, tx))
    ensures Enabled(s2, Second(at, tx, aj, rj)) && s3 == Apply(s2, Second(at, tx, aj, rj))
    ensures Enabled(s3, Commit(at, tx)) && s' == Apply(s3, Commit(at, tx))
  {
    hide Enabled, Apply;
    var e1, e2, e3, e4 := Begin(at, tx, job), First(at, tx), Second(at, tx, aj, rj), Commit(at, tx);
    s1 := Apply(s, e1);
    assert [e1, e2, e3, e4][1..] == [e2, e3, e4] && IsRun(s1, [e2, e3, e4], s');
    s2 := Apply(s1, e2);
    assert [e2, e3, e4][1..] == [e3, e4] && IsRun(s2, [e3, e4], s');
    s3 := Apply(s2, e3);
    assert [e3, e4][1..] == [e4] && IsRun(s3, [e4], s');
    assert [e4][1..] == [] && IsRun(Apply(s3, e4), [], s');
  }

  /** The first write signs nothing and denies at most the caller's token. */
  lemma FirstLeaves(s1: State, tx: TxId, at: int, jti: Jti)
    requires tx in s1.txs && jti !in s1.denied
    requires s1.txs[tx].job.SwitchJob? ==> s1.txs[tx].job.caller.jti != jti
    requires !s1.txs[tx].job.LogoutJob?
    ensures var s2 := ApplyFirst(s1, tx, at);
            && jti !in s2.denied && s2.minted == s1.minted && s2.used == s1.used
            && (tx in s2.txs ==> s2.txs[tx].job == s1.txs[tx].job)
  {
    hide Hits;
  }

  lemma TwoStepsLater(s: State, tx: TxId, job: Job, at: int)
    requires Enabled(s, Begin(at, tx, job)) && Enabled(Apply(s, Begin(at, tx, job)), First(at, tx)) && !job.LogoutJob?
    ensures var s2 := Apply(Apply(s, Begin(at, tx, job)), First(at, tx));
            && s2.now == at && s2.used == s.used && s2.minted == s.minted
            && (tx in s2.txs ==> s2.txs[tx].job == job)
            && forall jti :: jti !in s.denied && (job.SwitchJob? ==> job.caller.jti != jti) ==> jti !in s2.denied
    ensures job.SwitchJob? ==> job.caller in s.minted
  {
    var s1 := Apply(s, Begin(at, tx, job));
    forall jti | jti !in s.denied && (job.SwitchJob? ==> job.caller.jti != jti)
      ensures jti !in ApplyFirst(s1, tx, at).denied
    {
      FirstLeaves(s1, tx, at, jti);
    }
    FirstKeepsJobs(s1, First(at, tx));
  }

  lemma SecondSigns(s2: State, tx: TxId, job: Job, aj: Jti, rj: Jti, at: int)
    requires tx in s2.txs && s2.txs[tx].job == job && !job.LogoutJob?
    ensures var s3, i := ApplySecond(s2, tx, aj, rj, at), IssueOf(job);
            && s3.minted == s2.minted + NewTokens(i, aj, rj, at) && s3.denied == s2.denied
            && tx in s3.txs && rj in s3.txs[tx].inserts
            && s3.txs[tx].inserts[rj] == Row(i.user, at, at + REFRESH_TTL, None, i.org, i.cause, |s2.used|)
  {
  }

  lemma CommitInserts(rows: map<Jti, Row>, t: Tx, j: Jti)
    requires j in t.inserts
    ensures j in CommittedRows(rows, t) && CommittedRows(rows, t)[j] == t.inserts[j]
  {
  }

  lemma OnlyNew(s: State, s3: State, c: Claims, i: Issue, aj: Jti, rj: Jti, at: int)
    requires forall d :: d in s.minted ==> d.jti != c.jti
    requires s3.minted == s.minted + NewTokens(i, aj, rj, at) && c in s3.minted && aj != rj
    ensures c.jti == aj ==> c == Encode(i.user, i.org, i.perms, aj, ACCESS_TTL, Access, at)
    ensures c.jti == rj ==> c == Encode(i.user, i.org, {}, rj, REFRESH_TTL, Refresh, at)
  {
  }

  /** What the two writes of a request leave behind at its commit. */
  ghost predicate Signed(s: State, i: Issue, tx: TxId, aj: Jti, rj: Jti, at: int, s': State) {
    && s'.minted == s.minted + NewTokens(i, aj, rj, at) && aj !in s'.denied && rj !in s'.denied
    && rj in s'.rows && s'.rows[rj] == Row(i.user, at, at + REFRESH_TTL, None, i.org, i.cause, s'.rows[rj].serial)
  }

  lemma RequestSigns(s: State, tx: TxId, job: Job, aj: Jti, rj: Jti, at: int, s': State)
    requires Reachable(s) && IsRequest(s, tx, job, aj, rj, at, s') && !job.LogoutJob?
    ensures Signed(s, IssueOf(job), tx, aj, rj, at, s') && aj !in s.used && rj !in s.used && aj != rj
  {
    var s1, s2, s3 := RequestSteps(s, tx, job, aj, rj, at, s');
    TwoStepsLater(s, tx, job, at);
    NewIsNotDenied(s, aj);
    NewIsNotDenied(s, rj);
    hide Reachable, IsRequest, ApplyFirst, ApplySecond, CommittedRows, NewTokens, MayBegin;
    SecondSigns(s2, tx, job, aj, rj, at);
    CommitInserts(s3.rows, s3.txs[tx], rj);
  }

  lemma SignedWorks(s: State, i: Issue, tx: TxId, aj: Jti, rj: Jti, at: int, s': State, pair: (Claims, Claims))
    requires Reachable(s) && Signed(s, i, tx, aj, rj, at, s') && aj !in s.used && rj !in s.used && aj != rj
    requires pair.0 in s'.minted && pair.0.jti == aj && pair.1 in s'.minted && pair.1.jti == rj
    ensures PairWorks(s', pair, i.user, i.org, i.perms, at)
  {
    NewIsNotDenied(s, aj);
    NewIsNotDenied(s, rj);
    OnlyNew(s, s', pair.0, i, aj, rj, at);
    OnlyNew(s, s', pair.1, i, aj, rj, at);
    hide Reachable, Authenticates, Refreshes;
    SignedAuthenticates(s', i.user, i.org, i.perms, aj, at);
    SignedRefreshes(s', i.user, i.org, rj, at);
  }

  /** Two tokens come of a request, and they work: a login's and a switch's with the profile it read, a refresh's with
      no permissions. */
  lemma RequestHandsOut(s: State, tx: TxId, job: Job, aj: Jti, rj: Jti, at: int, s': State, pair: (Claims, Claims))
    requires Reachable(s) && IsRequest(s, tx, job, aj, rj, at, s') && !job.LogoutJob?
    requires pair.0 in s'.minted && pair.0.jti == aj && pair.1 in s'.minted && pair.1.jti == rj
    ensures match job
            case LoginJob(u, o, perms) => PairWorks(s', pair, u, o, perms, at)
            case SwitchJob(c, o, perms) => PairWorks(s', pair, c.user, Some(o), perms, at)
            case RefreshJob(c) => PairWorks(s', pair, c.user, c.org, {}, at)
  {
    hide Reachable, IsRequest, PairWorks, Signed;
    RequestSigns(s, tx, job, aj, rj, at, s');
    SignedWorks(s, IssueOf(job), tx, aj, rj, at, s', pair);
  }

  /* ---------- what a request takes away ---------- */

  lemma {:induction false} RunThenRun(s: State, events: seq<Event>, s1: State, more: seq<Event>, s': State)
    requires IsRun(s, events, s1) && IsRun(s1, more, s')
    ensures IsRun(s, events + more, s')
    decreases |events|
  {
    hide Enabled, Apply;
    if events == [] {
      assert events + more == more;
    } else {
      RunThenRun(Apply(s, events[0]), events[1..], s1, more, s');
      assert (events + more)[1..] == events[1..] + more;
    }
  }

  lemma StaysReachable(s: State, tx: TxId, job: Job, aj: Jti, rj: Jti, at: int, s': State)
    requires Reachable(s) && IsRequest(s, tx, job, aj, rj, at, s')
    ensures Reachable(s')
  {
    hide IsRun;
    var events :| IsRun(Start, events, s);
    RunThenRun(Start, events, s, [Begin(at, tx, job), First(at, tx), Second(at, tx, aj, rj), Commit(at, tx)], s');
  }

  /** The token has been given to revoke_session, and its session row, if it has one, is not live. */
  ghost predicate TakenBack(s: State, c: Claims) { c.jti in s.revoked && !Live(s.rows, c.jti) }

  /** The transaction inserts nothing and, at its commit, leaves no live row of this jti. */
  ghost predicate TakesBack(s: State, tx: TxId, jti: Jti) {
    && tx in s.txs && s.txs[tx].inserts == map[] && jti in s.revoked
    && (Live(s.rows, jti) ==> jti in s.txs[tx].revokes)
  }

  lemma RevokingTakesBack(s: State, tx: TxId, jti: Jti, exp: int, at: int, stage: Stage, other: Jti)
    requires tx in s.txs && s.txs[tx].inserts == map[]
    ensures var s' := RevokeSession(s, tx, jti, exp, at, stage);
            && TakesBack(s', tx, jti) && (TakesBack(s, tx, other) ==> TakesBack(s', tx, other))
            && s'.now == s.now && s'.minted == s.minted && s'.rows == s.rows
  {
    hide Deny;
  }

  lemma LogoutFirst(s1: State, tx: TxId, c: Claims, cookie: Option<Claims>, at: int)
    requires tx in s1.txs && s1.txs[tx] == Tx(LogoutJob(c, cookie), Checked, map[], map[])
    ensures var s2 := ApplyFirst(s1, tx, at);
            && TakesBack(s2, tx, c.jti) && s2.now == s1.now && s2.minted == s1.minted && s2.rows == s1.rows
            && s2.txs[tx].job == LogoutJob(c, cookie)
  {
    RevokingTakesBack(s1, tx, c.jti, c.exp, at, Halfway, c.jti);
  }

  lemma LogoutSecond(s2: State, tx: TxId, c: Claims, cookie: Option<Claims>, aj: Jti, rj: Jti, at: int)
    requires TakesBack(s2, tx, c.jti) && s2.txs[tx].job == LogoutJob(c, cookie)
    ensures var s3 := ApplySecond(s2, tx, aj, rj, at);
            && TakesBack(s3, tx, c.jti) && s3.now == s2.now && s3.minted == s2.minted && s3.rows == s2.rows
            && (cookie.Some? && Decodes(s2, cookie.value, at) ==> TakesBack(s3, tx, cookie.value.jti))
  {
    if cookie.Some? && Decodes(s2, cookie.value, at) {
      RevokingTakesBack(s2, tx, cookie.value.jti, cookie.value.exp, at, Done, c.jti);
    }
  }

  lemma CommitTakesBack(s3: State, tx: TxId, c: Claims, at: int)
    requires Enabled(s3, Commit(at, tx))
    ensures TakesBack(s3, tx, c.jti) ==> TakenBack(Apply(s3, Commit(at, tx)), c)
    ensures Apply(s3, Commit(at, tx)).minted == s3.minted && Apply(s3, Commit(at, tx)).now == at
  {
  }

  /** A logout takes back the caller's token and the cookie's, if that decodes. */
  lemma LogoutTakesBack(s: State, tx: TxId, c: Claims, cookie: Option<Claims>, aj: Jti, rj: Jti, at: int, s': State)
    requires IsRequest(s, tx, LogoutJob(c, cookie), aj, rj, at, s')
    ensures c in s.minted && TakenBack(s', c)
    ensures cookie.Some? && Decodes(s, cookie.value, at) ==> TakenBack(s', cookie.value)
    ensures s.minted <= s'.minted && s'.now == at
  {
    var s1, s2, s3 := RequestSteps(s, tx, LogoutJob(c, cookie), aj, rj, at, s');
    hide IsRequest, ApplyFirst, ApplySecond, CommittedRows, TakesBack, TakenBack;
    LogoutFirst(s1, tx, c, cookie, at);
    LogoutSecond(s2, tx, c, cookie, aj, rj, at);
    CommitTakesBack(s3, tx, c, at);
    if cookie.Some? {
      CommitTakesBack(s3, tx, cookie.value, at);
    }
  }

  /** A refresh leaves the session row of the cookie it was given revoked. */
  lemma RefreshTakesBack(s: State, tx: TxId, c: Claims, aj: Jti, rj: Jti, at: int, s': State)
    requires Reachable(s) && IsRequest(s, tx, RefreshJob(c), aj, rj, at, s')
    ensures !Live(s'.rows, c.jti)
  {
    var s1, s2, s3 := RequestSteps(s, tx, RefreshJob(c), aj, rj, at, s');
    TwoStepsLater(s, tx, RefreshJob(c), at);
    NewIsNotDenied(s, rj);
    hide Reachable, IsRequest, IsDenied, ApplyFirst, ApplySecond, CommittedRows;
    RefreshFirst(s1, tx, c, at);
    RefreshSecond(s2, tx, c, aj, rj, at);
    CommitRevokes(s3.rows, s3.txs[tx], c.jti);
  }

  lemma RefreshFirst(s1: State, tx: TxId, c: Claims, at: int)
    requires tx in s1.txs && s1.txs[tx] == Tx(RefreshJob(c), Checked, map[], map[])
    ensures var s2 := ApplyFirst(s1, tx, at);
            tx in s2.txs ==>
              && c.jti in s2.txs[tx].revokes && s2.txs[tx].inserts == map[]
              && s2.txs[tx].job == RefreshJob(c)
  {
  }

  lemma RefreshSecond(s2: State, tx: TxId, c: Claims, aj: Jti, rj: Jti, at: int)
    requires tx in s2.txs && s2.txs[tx].inserts == map[] && s2.txs[tx].job == RefreshJob(c)
    ensures var s3 := ApplySecond(s2, tx, aj, rj, at);
            tx in s3.txs && s3.txs[tx].revokes == s2.txs[tx].revokes && s3.txs[tx].inserts.Keys == {rj}
  {
  }

  lemma CommitRevokes(rows: map<Jti, Row>, t: Tx, j: Jti)
    requires j in t.revokes && j !in t.inserts
    ensures !Live(CommittedRows(rows, t), j)
  {
  }

  /** A switch takes back the token it was called with. */
  lemma SwitchRevokes(s: State, tx: TxId, c: Claims, org: OrgId, perms: set<Permission>, aj: Jti, rj: Jti, at: int,
                      s': State)
    requires IsRequest(s, tx, SwitchJob(c, org, perms), aj, rj, at, s')
    ensures c in s.minted && c.jti in s'.revoked && s.minted <= s'.minted && s'.now == at
  {
    var s1, s2, s3 := RequestSteps(s, tx, SwitchJob(c, org, perms), aj, rj, at, s');
    hide CommittedRows, Revoking, Deny, Inserting;
  }

  /** From `at` on nothing is done with the token, except in the last second of its life. */
  ghost predicate RefusedFrom(s: State, c: Claims, at: int) {
    forall later :: later >= at && (Accepts(s, Token(c), later) || MayBegin(s, RefreshJob(c), later)) ==>
                      c.exp * 1_000_000 - 1_000_000 < later
  }

  lemma RevokedIsRefusedFrom(s: State, c: Claims, at: int)
    requires Reachable(s) && c in s.minted && c.jti in s.revoked && s.now <= at
    ensures RefusedFrom(s, c, at)
  {
    var events :| IsRun(Start, events, s);
    hide IsRun, Accepts, MayBegin;
    forall later | later >= at && (Accepts(s, Token(c), later) || MayBegin(s, RefreshJob(c), later))
      ensures c.exp * 1_000_000 - 1_000_000 < later
    {
      RevokedTokenIsRefused(events, s, c, later);
    }
  }

  /* ---------- the life of an API key ---------- */

  predicate MintsKey(e: Event, k: KeyId) { e.MintKey? && e.key == k }

  predicate RevokesKey(e: Event, k: KeyId) { e.RevokeKey? && e.key == k }

  lemma KeyStep(s: State, e: Event, k: KeyId)
    requires Enabled(s, e)
    ensures var s' := Apply(s, e);
            && (k in s'.keys <==> k in s.keys || MintsKey(e, k))
            && (k in s.keys ==> !MintsKey(e, k) && s'.keys[k].expiresAt == s.keys[k].expiresAt)
            && (k in s'.keys ==> (s'.keys[k].revokedAt.Some? <==>
                                  (k in s.keys && s.keys[k].revokedAt.Some?) || RevokesKey(e, k)))
            && (MintsKey(e, k) ==> s'.keys[k].expiresAt == e.expiresAt)
  {
    if e.First? {
      FirstFrame(s, e);
    } else if e.Second? {
      SecondFrame(s, e);
    }
  }

  lemma {:induction false} KeyHistory(s: State, events: seq<Event>, s': State, k: KeyId)
    requires IsRun(s, events, s')
    ensures k in s'.keys <==> k in s.keys || exists i :: 0 <= i < |events| && MintsKey(events[i], k)
    ensures k in s.keys ==> s'.keys[k].expiresAt == s.keys[k].expiresAt
    ensures forall i :: 0 <= i < |events| && MintsKey(events[i], k) ==>
              k !in s.keys && s'.keys[k].expiresAt == events[i].expiresAt
    ensures k in s'.keys ==>
              (s'.keys[k].revokedAt.Some? <==>
                 || (k in s.keys && s.keys[k].revokedAt.Some?)
                 || exists i :: 0 <= i < |events| && RevokesKey(events[i], k))
    decreases |events|
  {
    if events != [] {
      KeyStep(s, events[0], k);
      hide Apply, Enabled, MintsKey, RevokesKey;
      var rest := events[1..];
      KeyHistory(Apply(s, events[0]), rest, s', k);
      assert forall i :: 0 <= i < |rest| ==> rest[i] == events[i + 1];
      assert forall i :: 0 < i < |events| ==> events[i] == rest[i - 1];
    }
  }

  /** Over every run a key is accepted exactly when it has been minted, its expiry is not past, and nobody has revoked
      it. */
  lemma KeyAcceptedExactlyWhen(events: seq<Event>, s: State, k: KeyId, at: int)
    requires IsRun(Start, events, s)
    ensures Accepts(s, Key(k), at)
            <==> && (exists i :: 0 <= i < |events| && MintsKey(events[i], k)
                                 && (events[i].expiresAt.Some? ==> at <= events[i].expiresAt.value))
                 && (forall i :: 0 <= i < |events| ==> !RevokesKey(events[i], k))
  {
    KeyHistory(Start, events, s, k);
    hide IsRun;
  }

  class Service {
    var now: int
    var memberships: map<(UserId, OrgId), set<Permission>>
    var rows: map<Jti, Row>
    var txs: map<TxId, Tx>
    var keys: map<KeyId, ApiKey>
    var denied: map<Jti, int>
    var used: set<Jti>
    var minted: set<Claims>
    var grants: set<Grant>
    var revoked: map<Jti, int>
    var tally: Tally

    ghost function Abstract(): State
      reads this
    {
      State(now, memberships, rows, txs, keys, denied, used, minted, grants, revoked, tally)
    }

    constructor ()
      ensures Abstract() == Start
    {
      now, memberships, rows, txs, keys := 0, map[], map[], map[], map[];
      denied, used, minted, grants, revoked, tally := map[], {}, {}, {}, map[], Tally(0, 0, 0, 0);
    }

    method CheckDenied(jti: Jti, at: int) returns (yes: bool)
      ensures yes == IsDenied(Abstract(), jti, at)
    {
      yes := jti in denied && at < denied[jti];
    }

    method IssuePair(tx: TxId, i: Issue, aj: Jti, rj: Jti, at: int) returns (pair: (Claims, Claims))
      requires tx in txs
      modifies this
      ensures Abstract() == IssueTokens(old(Abstract()), tx, i, aj, rj, at)
      ensures {pair.0, pair.1} == NewTokens(i, aj, rj, at) && pair.0.typ == Access && pair.1.typ == Refresh
      ensures pair.0.jti == aj && pair.1.jti == rj
    {
      var access := Encode(i.user, i.org, i.perms, aj, ACCESS_TTL, Access, at);
      var refresh := Encode(i.user, i.org, {}, rj, REFRESH_TTL, Refresh, at);
      var row := Row(i.user, at, at + REFRESH_TTL, None, i.org, i.cause, |used|);
      txs := txs[tx := txs[tx].(inserts := txs[tx].inserts[rj := row], stage := Done)];
      minted := minted + {access, refresh};
      used := used + {aj, rj};
      return (access, refresh);
    }

    method Revoke(tx: TxId, jti: Jti, exp: int, at: int, stage: Stage)
      requires tx in txs
      modifies this
      ensures Abstract() == RevokeSession(old(Abstract()), tx, jti, exp, at, stage)
    {
      var t := txs[tx];
      if jti in rows && rows[jti].revokedAt.None? && jti !in t.revokes {
        t := t.(revokes := t.revokes[jti := at]);
      }
      txs := txs[tx := t.(stage := stage)];
      if exp * SECOND > at {
        var ttl := (exp * SECOND - at) / SECOND;
        if ttl > 0 {
          denied := denied[jti := at + ttl * SECOND];
        }
      }
      revoked := revoked[jti := exp];
    }

    method Finish(tx: TxId)
      requires tx in txs && txs[tx].stage == Done
      modifies this
      ensures Abstract() == Apply(old(Abstract()), Commit(old(now), tx))
    {
      var t := txs[tx];
      rows := CommittedRows(rows, t);
      txs := txs - {tx};
      tally := Counted(tally, t);
    }

    method Open(tx: TxId, job: Job, at: int)
      requires Enabled(Abstract(), Begin(at, tx, job))
      modifies this
      ensures Abstract() == Apply(old(Abstract()), Begin(at, tx, job))
    {
      now := at;
      txs := txs[tx := Tx(job, Checked, map[], map[])];
      grants := grants + GrantsOf(job, at);
    }

    /** POST /refresh: a refusal changes nothing, a success is the four steps of a refresh. Other transactions may be
        open; one that has written the row would make the UPDATE wait. */
    method RefreshTokens(tx: TxId, cookie: Claims, aj: Jti, rj: Jti, at: int)
      returns (r: Result<(Claims, Claims), AuthError>)
      requires now <= at && tx !in txs && Unlocked(Abstract(), cookie.jti) && aj !in used && rj !in used && aj != rj
      modifies this
      ensures r.Success? ==> IsRequest(old(Abstract()), tx, RefreshJob(cookie), aj, rj, at, Abstract())
      ensures r.Failure? ==> Abstract() == old(Abstract())
      ensures r.Success? <==> MayBegin(old(Abstract()), RefreshJob(cookie), at) && Live(old(rows), cookie.jti)
      ensures r.Failure? ==> r.error == if !Decodes(old(Abstract()), cookie, at) then TokenInvalid
                                        else if cookie.typ != Refresh then NotARefreshToken else RefreshRevoked
      ensures r.Success? && Reachable(old(Abstract())) ==>
                PairWorks(Abstract(), r.value, cookie.user, cookie.org, {}, at) && !Live(rows, cookie.jti)
    {
      if cookie !in minted || at >= cookie.exp * SECOND {
        return Failure(TokenInvalid);
      }
      if cookie.typ != Refresh {
        return Failure(NotARefreshToken);
      }
      var no := CheckDenied(cookie.jti, at);
      if no || !(cookie.jti in rows && rows[cookie.jti].revokedAt.None?) {
        return Failure(RefreshRevoked);
      }
      ghost var s0 := Abstract();
      Open(tx, RefreshJob(cookie), at);
      ghost var s1 := Abstract();
      txs := txs[tx := txs[tx].(revokes := map[cookie.jti := at], stage := Halfway)];
      ghost var s2 := Abstract();
      assert s2 == Apply(s1, First(at, tx));
      var pair := IssuePair(tx, Issue(cookie.user, cookie.org, {}, ByRotation(cookie.jti)), aj, rj, at);
      ghost var s3 := Abstract();
      assert s3 == Apply(s2, Second(at, tx, aj, rj));
      Finish(tx);
      FourSteps(s0, s1, s2, s3, Abstract(), tx, RefreshJob(cookie), aj, rj, at);
      if Reachable(s0) {
        RequestHandsOut(s0, tx, RefreshJob(cookie), aj, rj, at, Abstract(), pair);
        RefreshTakesBack(s0, tx, cookie, aj, rj, at, Abstract());
      }
      return Success(pair);
    }

    /** POST /login, from the point where the password has been compared. `orgs` is the database's list of the
        user's organizations; the profile read is that of the default one if it is listed, else of the first. */
    method Login(tx: TxId, user: UserId, passwordOk: bool, status: UserStatus, defaultOrg: Option<OrgId>,
                 orgs: seq<OrgId>, aj: Jti, rj: Jti, at: int)
      returns (r: Result<(Claims, Claims), AuthError>)
      requires now <= at && tx !in txs && aj !in used && rj !in used && aj != rj
      requires forall o :: o in orgs <==> (user, o) in memberships
      modifies this
      ensures r.Failure? ==> Abstract() == old(Abstract())
      ensures r.Success? <==> passwordOk && status == Active && orgs != []
      ensures r.Failure? ==> r.error == if !passwordOk then InvalidCredentials
                                        else if status == PendingInvite then InvitePending
                                        else if status == Locked then AccountLocked else NoOrganization
      ensures r.Success? ==>
                var org := if defaultOrg.Some? && defaultOrg.value in orgs then defaultOrg.value else orgs[0];
                && IsRequest(old(Abstract()), tx, LoginJob(user, Some(org), old(memberships[(user, org)])), aj, rj, at,
                             Abstract())
                && (Reachable(old(Abstract())) ==>
                      PairWorks(Abstract(), r.value, user, Some(org), old(memberships[(user, org)]), at))
    {
      if !passwordOk {
        return Failure(InvalidCredentials);
      }
      if status == PendingInvite {
        return Failure(InvitePending);
      }
      if status == Locked {
        return Failure(AccountLocked);
      }
      if orgs == [] {
        return Failure(NoOrganization);
      }
      var chosen := if defaultOrg.Some? && defaultOrg.value in orgs then defaultOrg.value else orgs[0];
      var job := LoginJob(user, Some(chosen), memberships[(user, chosen)]);
      ghost var s0 := Abstract();
      Open(tx, job, at);
      ghost var s1 := Abstract();
      txs := txs[tx := txs[tx].(stage := Halfway)];
      ghost var s2 := Abstract();
      assert s2 == Apply(s1, First(at, tx));
      var pair := IssuePair(tx, Issue(user, Some(chosen), memberships[(user, chosen)], ByLogin), aj, rj, at);
      ghost var s3 := Abstract();
      assert s3 == Apply(s2, Second(at, tx, aj, rj));
      Finish(tx);
      FourSteps(s0, s1, s2, s3, Abstract(), tx, job, aj, rj, at);
      if Reachable(s0) {
        RequestHandsOut(s0, tx, job, aj, rj, at, Abstract(), pair);
      }
      return Success(pair);
    }

    method CurrentUser(caller: Credential, at: int) returns (yes: bool)
      ensures yes == Accepts(Abstract(), caller, at)
    {
      match caller {
        case Token(c) =>
          if c !in minted || at >= c.exp * SECOND || c.typ != Access {
            return false;
          }
          var no := CheckDenied(c.jti, at);
          return !no;
        case Key(k) =>
          return k in keys && keys[k].revokedAt.None? && (keys[k].expiresAt.Some? ==> at <= keys[k].expiresAt.value);
      }
    }

    /** POST /switch-org. A caller holding an API key has no jti of a token, which fails before any write. */
    method SwitchOrg(tx: TxId, caller: Credential, target: OrgId, aj: Jti, rj: Jti, at: int)
      returns (r: Result<(Claims, Claims), AuthError>)
      requires now <= at && tx !in txs && (caller.Token? ==> Unlocked(Abstract(), caller.claims.jti))
      requires aj !in used && rj !in used && aj != rj
      modifies this
      ensures r.Failure? ==> Abstract() == old(Abstract())
      ensures r.Success? <==> && caller.Token? && Accepts(old(Abstract()), caller, at)
                              && (caller.claims.user, target) in old(memberships)
      ensures r.Success? ==>
                IsRequest(old(Abstract()), tx,
                          SwitchJob(caller.claims, target, old(memberships)[(caller.claims.user, target)]),
                          aj, rj, at, Abstract())
      ensures r.Success? && Reachable(old(Abstract())) ==>
                && PairWorks(Abstract(), r.value, caller.claims.user, Some(target),
                             old(memberships)[(caller.claims.user, target)], at)
                && RefusedFrom(Abstract(), caller.claims, at)
    {
      var known := CurrentUser(caller, at);
      if !known {
        return Failure(TokenRevoked);
      }
      var user := match caller case Token(c) => c.user case Key(k) => keys[k].user;
      if (user, target) !in memberships {
        return Failure(NotAMember);
      }
      if caller.Key? {
        return Failure(MalformedJti);
      }
      var job := SwitchJob(caller.claims, target, memberships[(user, target)]);
      ghost var s0 := Abstract();
      Open(tx, job, at);
      ghost var s1 := Abstract();
      RevokeCaller(tx, caller.claims, at);
      ghost var s2 := Abstract();
      var pair := IssuePair(tx, Issue(user, Some(target), memberships[(user, target)], BySwitch), aj, rj, at);
      ghost var s3 := Abstract();
      assert s3 == Apply(s2, Second(at, tx, aj, rj));
      Finish(tx);
      FourSteps(s0, s1, s2, s3, Abstract(), tx, job, aj, rj, at);
      if Reachable(s0) {
        RequestHandsOut(s0, tx, job, aj, rj, at, Abstract(), pair);
        SwitchRevokes(s0, tx, caller.claims, target, memberships[(user, target)], aj, rj, at, Abstract());
        StaysReachable(s0, tx, job, aj, rj, at, Abstract());
        RevokedIsRefusedFrom(Abstract(), caller.claims, at);
      }
      return Success(pair);
    }

    /** POST /logout. The cookie may be any token; one that does not decode is passed over. */
    method Logout(tx: TxId, caller: Credential, cookie: Option<Claims>, aj: Jti, rj: Jti, at: int)
      returns (r: Result<(), AuthError>)
      requires now <= at && tx !in txs && (caller.Token? ==> Unlocked(Abstract(), caller.claims.jti))
      requires cookie.Some? ==> Unlocked(Abstract(), cookie.value.jti)
      requires aj !in used && rj !in used && aj != rj
      modifies this
      ensures r.Failure? ==> Abstract() == old(Abstract())
      ensures r.Success? <==> caller.Token? && Accepts(old(Abstract()), caller, at)
      ensures r.Success? ==> IsRequest(old(Abstract()), tx, LogoutJob(caller.claims, cookie), aj, rj, at, Abstract())
      ensures r.Success? ==> TakenBack(Abstract(), caller.claims)
      ensures r.Success? && cookie.Some? && Decodes(old(Abstract()), cookie.value, at) ==>
                TakenBack(Abstract(), cookie.value)
      ensures r.Success? && Reachable(old(Abstract())) ==>
                && RefusedFrom(Abstract(), caller.claims, at)
                && (cookie.Some? && Decodes(old(Abstract()), cookie.value, at) ==>
                      RefusedFrom(Abstract(), cookie.value, at))
    {
      var known := CurrentUser(caller, at);
      if !known {
        return Failure(TokenRevoked);
      }
      if caller.Key? {
        return Failure(MalformedJti);
      }
      var job := LogoutJob(caller.claims, cookie);
      ghost var s0 := Abstract();
      Open(tx, job, at);
      ghost var s1 := Abstract();
      RevokeCaller(tx, caller.claims, at);
      ghost var s2 := Abstract();
      RevokeCookie(tx, cookie, aj, rj, at);
      ghost var s3 := Abstract();
      Finish(tx);
      FourSteps(s0, s1, s2, s3, Abstract(), tx, job, aj, rj, at);
      LogoutTakesBack(s0, tx, caller.claims, cookie, aj, rj, at, Abstract());
      if Reachable(s0) {
        StaysReachable(s0, tx, job, aj, rj, at, Abstract());
        RevokedIsRefusedFrom(Abstract(), caller.claims, at);
        if cookie.Some? && Decodes(s0, cookie.value, at) {
          RevokedIsRefusedFrom(Abstract(), cookie.value, at);
        }
      }
      return Success(());
    }

    method RevokeCaller(tx: TxId, caller: Claims, at: int)
      requires Enabled(Abstract(), First(at, tx)) && now == at
      requires var job := txs[tx].job; (job.LogoutJob? || job.SwitchJob?) && job.caller == caller
      modifies this
      ensures tx in txs && used == old(used) && now == at
      ensures forall t :: t != tx ==> (t in txs <==> t in old(txs)) && (t in txs ==> txs[t] == old(txs)[t])
      ensures txs[tx].job == old(txs)[tx].job && txs[tx].stage == Halfway
      ensures Abstract() == Apply(old(Abstract()), First(at, tx))
    {
      Revoke(tx, caller.jti, caller.exp, at, Halfway);
    }

    method RevokeCookie(tx: TxId, cookie: Option<Claims>, aj: Jti, rj: Jti, at: int)
      requires tx in txs && (cookie.Some? ==> !LockedByOther(Abstract(), tx, cookie.value.jti))
      requires txs[tx].job.LogoutJob? && txs[tx].job.cookie == cookie && txs[tx].stage == Halfway
      requires aj !in used && rj !in used && aj != rj && now == at
      modifies this
      ensures tx in txs && txs[tx].stage == Done && Enabled(old(Abstract()), Second(at, tx, aj, rj))
      ensures Abstract() == Apply(old(Abstract()), Second(at, tx, aj, rj))
    {
      if cookie.Some? && cookie.value in minted && at < cookie.value.exp * SECOND {
        Revoke(tx, cookie.value.jti, cookie.value.exp, at, Done);
      } else {
        txs := txs[tx := txs[tx].(stage := Done)];
      }
    }

    /** POST /me/api-keys: the scope must be known permissions and the caller's own. */
    method CreateMyKey(k: KeyId, caller: Credential, scope: set<Permission>, expiresAt: Option<int>, at: int)
      returns (r: Result<(), AuthError>)
      requires now <= at && k !in keys
      modifies this
      ensures r.Failure? ==> Abstract() == old(Abstract())
      ensures r.Success? <==> Enabled(old(Abstract()), MintKey(at, k, caller, scope, expiresAt))
      ensures r.Success? ==> Abstract() == Apply(old(Abstract()), MintKey(at, k, caller, scope, expiresAt))
    {
      var known := CurrentUser(caller, at);
      if !known {
        return Failure(TokenRevoked);
      }
      if !(scope <= CATALOG) {
        return Failure(UnknownPermissions);
      }
      var own := match caller case Token(c) => c.perms case Key(p) => keys[p].scope;
      if !(scope <= own) {
        return Failure(ScopeExceedsCaller);
      }
      var user := match caller case Token(c) => c.user case Key(p) => keys[p].user;
      var origin := match caller case Token(c) => c case Key(p) => keys[p].origin;
      keys := keys[k := ApiKey(user, scope, expiresAt, None, caller, origin)];
      now := at;
      return Success(());
    }

    /** DELETE of a key of `owner`, by the owner or by an administrator. */
    method RevokeKeyOf(owner: UserId, k: KeyId, at: int) returns (r: Result<(), AuthError>)
      requires now <= at
      modifies this
      ensures r == if k in old(keys) && old(keys)[k].user == owner && old(keys)[k].revokedAt.None? then Success(())
                   else Failure(KeyNotFound)
      ensures r.Failure? ==> Abstract() == old(Abstract())
      ensures r.Success? ==> Abstract() == Apply(old(Abstract()), RevokeKey(at, k))
    {
      if !(k in keys && keys[k].user == owner && keys[k].revokedAt.None?) {
        return Failure(KeyNotFound);
      }
      keys := keys[k := keys[k].(revokedAt := Some(at))];
      now := at;
      return Success(());
    }
  }
}

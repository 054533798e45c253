/** The OAuth handlers of one hub process as an interleaving state machine.

    Each request is a small program. One `Advance` event runs the next atomic
    piece of one request: a single store operation, or the claim taken under the
    claim mutex, or a block of local checks. Events of different requests
    interleave in any order. Every store call may fail, a family revocation may
    fail halfway, and the write of the consumed flag may be lost. */
module OAuthProtocol {
  import opened OAuthStore

  /** Library functions the handlers depend on, left uninterpreted. */
  datatype Env = Env(s256: string -> string, hasOffline: string -> bool)

  /** PKCE verification, S256 only, with the verifier length bounds. */
  predicate VerifyPKCE(env: Env, challenge: string, verifier: string) {
    challenge != "" && 43 <= |verifier| <= 128 && env.s256(verifier) == challenge
  }

  datatype ExchangeForm = ExchangeForm(code: string, client: string, redirect: string, resource: string,
      verifier: string)

  /** How a request came to issue a pair. */
  datatype Origin = FromCode(hash: string, claimedAt: int) | FromRefresh(hash: string)

  datatype Phase =
    // exchangeCode
    | XStart(x: ExchangeForm)
    | XRead(x: ExchangeForm, code: AuthCode)
    | XReplayTokens(hash: string, code: AuthCode)
    | XReplayGrant(hash: string, code: AuthCode)
    | XClaimed(x: ExchangeForm, code: AuthCode, claimedAt: int)
    | XVerified(x: ExchangeForm, code: AuthCode, claimedAt: int)
    // rotateRefresh
    | RStart(hash: string, client: string)
    | RRead(hash: string, client: string, tok: Token)
    | RVerified(hash: string, tok: Token)
    // issuePair
    | Issue(origin: Origin, grant: string, binding: Binding)
    | IssueRefresh(origin: Origin, grant: string, binding: Binding, issuedAt: int)
    | Served(origin: Origin, ok: bool)
    // handleRevoke, handleRevokeGrant
    | VStart(hash: string)
    | VRead(grant: string)
    | GStart(user: string, grant: string)
    | GTokensGone(user: string, grant: string)
    // handleConsentDecide
    | CStart(consent: Binding, redirect: string, challenge: string)
    | CGranted(grant: string, consent: Binding, redirect: string, challenge: string, at: int)
    // IdentityFromOAuthToken
    | AStart(hash: string)
    | ATokenRead(hash: string, tok: Token)
    | AGrantRead(hash: string, tok: Token)
    | Accepted(hash: string, tok: Token)
    // the last-used touch
    | TStart(hash: string)
    | TRead(hash: string, tok: Token)
    // finished without issuing
    | Finished(ok: bool)

  datatype Hub = Hub(
    tables: Tables,
    claims: map<string, int>,
    clock: int,
    reqs: map<nat, Phase>)

  /** `ok`: the store call succeeds. `drawn`: the random id or hash drawn.
      `hit`: which tokens a failing family revocation still reached.
      `persists`: the consumed flag becomes visible to later reads. */
  datatype Choice = Choice(ok: bool, drawn: string, hit: set<string>, persists: bool)

  datatype Event =
    | Arrive(id: nat, now: int, start: Phase)
    | Advance(id: nat, now: int, choice: Choice)
    | SetUser(user: string, disabled: bool, now: int)

  predicate IsStart(p: Phase) {
    p.XStart? || p.RStart? || p.VStart? || p.GStart? || p.CStart? || p.AStart? || p.TStart?
  }

  predicate IsFinal(p: Phase) {
    p.Served? || p.Accepted? || p.Finished?
  }

  /** Randomly drawn ids never repeat. */
  predicate FreshFor(t: Tables, p: Phase, drawn: string) {
    match p
    case CStart(_, _, _) => drawn !in t.grants
    case CGranted(_, _, _, _, _) => drawn !in t.codes
    case Issue(_, _, _) => drawn !in t.tokens
    case IssueRefresh(_, _, _, _) => drawn !in t.tokens
    case _ => true
  }

  /** The clock never runs backwards. */
  predicate Enabled(s: Hub, e: Event) {
    s.clock <= e.now &&
    match e
    case Arrive(id, _, start) => id !in s.reqs && IsStart(start)
    case Advance(id, _, c) => id in s.reqs && !IsFinal(s.reqs[id]) && FreshFor(s.tables, s.reqs[id], c.drawn)
    case SetUser(_, _, _) => true
  }

  /** claimCode: drop claims older than twice the code lifetime, then take the
      claim unless somebody holds it. */
  function Sweep(claims: map<string, int>, now: int): map<string, int> {
    map h | h in claims && now - claims[h] <= 2 * AUTH_CODE_TTL :: claims[h]
  }

  function ClaimCode(claims: map<string, int>, hash: string, now: int): (r: (map<string, int>, bool))
    ensures r.1 <==> hash !in claims || now - claims[hash] > 2 * AUTH_CODE_TTL
    ensures hash in r.0 && (r.1 ==> r.0[hash] == now) && (!r.1 ==> r.0[hash] == claims[hash])
  {
    var kept := Sweep(claims, now);
    if hash in kept then (kept, false) else (kept[hash := now], true)
  }

  predicate ExchangeAllowed(env: Env, x: ExchangeForm, code: AuthCode, now: int) {
    && !Expired(code.expires, now)
    && x.client == code.binding.client
    && x.redirect == code.redirect
    && (x.resource == "" || x.resource == code.binding.resource)
    && VerifyPKCE(env, code.challenge, x.verifier)
  }

  predicate RotateAllowed(client: string, tok: Token, now: int) {
    tok.kind == RefreshKind && !Expired(tok.expires, now) && client == tok.binding.client
  }

  /** What one atomic piece of a handler does: at most one store write, possibly
      a new claim map, and the request's next phase. */
  datatype Effect = Effect(write: Write, claims: map<string, int>, phase: Phase)

  function ExchangeStep(env: Env, s: Hub, p: Phase, now: int, c: Choice): Effect
    requires p.XStart? || p.XRead? || p.XReplayTokens? || p.XReplayGrant? || p.XClaimed? || p.XVerified?
  {
    var t := s.tables;
    match p
    case XStart(x) =>
      Effect(NoWrite, s.claims,
             if c.ok && GetAuthCode(t, x.code).Some? then XRead(x, t.codes[x.code]) else Finished(false))
    case XRead(x, code) =>
      if code.consumed then Effect(NoWrite, s.claims, XReplayTokens(x.code, code))
      else
        var (claims, won) := ClaimCode(s.claims, x.code, now);
        Effect(NoWrite, claims, if won then XClaimed(x, code, now) else XReplayTokens(x.code, code))
    case XReplayTokens(hash, code) =>
      Effect(RevokeTokens(code.grant, c.ok, c.hit), s.claims, XReplayGrant(hash, code))
    case XReplayGrant(hash, code) =>
      Effect(if c.ok then RevokeOneGrant(code.binding.user, code.grant) else NoWrite, s.claims, Finished(false))
    case XClaimed(x, code, at) =>
      Effect(NoWrite, s.claims, if ExchangeAllowed(env, x, code, now) then XVerified(x, code, at) else Finished(false))
    case XVerified(x, code, at) =>
      if c.ok && x.code in t.codes && !t.codes[x.code].consumed then
        Effect(if c.persists then Consume(x.code) else NoWrite, s.claims,
               Issue(FromCode(x.code, at), code.grant, code.binding))
      else Effect(NoWrite, s.claims, Finished(false))
  }

  function RotateStep(s: Hub, p: Phase, now: int, c: Choice): Effect
    requires p.RStart? || p.RRead? || p.RVerified?
  {
    var t := s.tables;
    match p
    case RStart(hash, client) =>
      Effect(NoWrite, s.claims,
             if c.ok && GetTokenByHash(t, hash).Some? then RRead(hash, client, t.tokens[hash]) else Finished(false))
    case RRead(hash, client, tok) =>
      Effect(NoWrite, s.claims, if RotateAllowed(client, tok, now) then RVerified(hash, tok) else Finished(false))
    case RVerified(hash, tok) =>
      Effect(RevokeTokens(tok.grant, c.ok, c.hit), s.claims,
             if c.ok then Issue(FromRefresh(hash), tok.grant, tok.binding) else Finished(false))
  }

  function IssueStep(env: Env, s: Hub, p: Phase, now: int, c: Choice): Effect
    requires p.Issue? || p.IssueRefresh?
  {
    if !c.ok then Effect(NoWrite, s.claims, Served(p.origin, false))
    else
      match p
      case Issue(origin, grant, b) =>
        Effect(PutToken(c.drawn, Token(AccessKind, grant, b, now + ACCESS_TOKEN_TTL, false)), s.claims,
               if env.hasOffline(b.scope) then IssueRefresh(origin, grant, b, now) else Served(origin, true))
      case IssueRefresh(origin, grant, b, at) =>
        Effect(PutToken(c.drawn, Token(RefreshKind, grant, b, at + REFRESH_TOKEN_TTL, false)), s.claims,
               Served(origin, true))
  }

  function RevokeStep(s: Hub, p: Phase, c: Choice): Effect
    requires p.VStart? || p.VRead? || p.GStart? || p.GTokensGone?
  {
    var t := s.tables;
    match p
    case VStart(hash) =>
      Effect(NoWrite, s.claims,
             if c.ok && GetTokenByHash(t, hash).Some? then VRead(t.tokens[hash].grant) else Finished(true))
    case VRead(grant) =>
      Effect(RevokeTokens(grant, c.ok, c.hit), s.claims, Finished(true))
    case GStart(user, grant) =>
      Effect(RevokeTokens(grant, c.ok, c.hit), s.claims,
             if c.ok then GTokensGone(user, grant) else Finished(false))
    case GTokensGone(user, grant) =>
      Effect(if c.ok then RevokeOneGrant(user, grant) else NoWrite, s.claims,
             Finished(c.ok && GetGrant(t, grant).Some? && t.grants[grant].binding.user == user))
  }

  function ConsentStep(s: Hub, p: Phase, now: int, c: Choice): Effect
    requires p.CStart? || p.CGranted?
  {
    if !c.ok then Effect(NoWrite, s.claims, Finished(false))
    else
      match p
      case CStart(b, redirect, challenge) =>
        Effect(PutGrant(c.drawn, b), s.claims, CGranted(c.drawn, b, redirect, challenge, now))
      case CGranted(grant, b, redirect, challenge, at) =>
        Effect(PutCode(c.drawn, AuthCode(grant, b, redirect, challenge, at + AUTH_CODE_TTL, false)),
               s.claims, Finished(true))
  }

  function UseStep(s: Hub, p: Phase, now: int, c: Choice): Effect
    requires p.AStart? || p.ATokenRead? || p.AGrantRead? || p.TStart? || p.TRead?
  {
    var t := s.tables;
    match p
    case AStart(hash) =>
      var live := c.ok && GetTokenByHash(t, hash).Some?;
      Effect(NoWrite, s.claims,
             if live && t.tokens[hash].kind == AccessKind && !Expired(t.tokens[hash].expires, now)
             then ATokenRead(hash, t.tokens[hash]) else Finished(false))
    case ATokenRead(hash, tok) =>
      Effect(NoWrite, s.claims, if c.ok && GetGrant(t, tok.grant).Some? then AGrantRead(hash, tok) else Finished(false))
    case AGrantRead(hash, tok) =>
      var u := tok.binding.user;
      Effect(NoWrite, s.claims, if c.ok && u in t.users && !t.users[u] then Accepted(hash, tok) else Finished(false))
    case TStart(hash) =>
      Effect(NoWrite, s.claims,
          if c.ok && GetTokenByHash(t, hash).Some? then TRead(hash, t.tokens[hash]) else Finished(false))
    case TRead(hash, tok) =>
      Effect(if c.ok then Touch(hash) else NoWrite, s.claims, Finished(c.ok))
  }

  function StepEffect(env: Env, s: Hub, p: Phase, now: int, c: Choice): Effect
    requires !IsFinal(p)
  {
    if p.XStart? || p.XRead? || p.XReplayTokens? || p.XReplayGrant? || p.XClaimed? || p.XVerified? then
      ExchangeStep(env, s, p, now, c)
    else if p.RStart? || p.RRead? || p.RVerified? then RotateStep(s, p, now, c)
    else if p.Issue? || p.IssueRefresh? then IssueStep(env, s, p, now, c)
    else if p.VStart? || p.VRead? || p.GStart? || p.GTokensGone? then RevokeStep(s, p, c)
    else if p.CStart? || p.CGranted? then ConsentStep(s, p, now, c)
    else UseStep(s, p, now, c)
  }

  function Apply(env: Env, s: Hub, e: Event): Hub
    requires Enabled(s, e)
  {
    match e
    case Arrive(id, now, start) => s.(clock := now, reqs := s.reqs[id := start])
    case Advance(id, now, c) =>
      var f := StepEffect(env, s, s.reqs[id], now, c);
      Hub(Perform(s.tables, f.write), f.claims, now, s.reqs[id := f.phase])
    case SetUser(user, disabled, now) =>
      s.(clock := now, tables := s.tables.(users := s.tables.users[user := disabled]))
  }

  /** A run: every event enabled in the state the earlier ones produced. */
  predicate IsRun(env: Env, s: Hub, es: seq<Event>)
    decreases |es|
  {
    es == [] || (Enabled(s, es[0]) && IsRun(env, Apply(env, s, es[0]), es[1..]))
  }

  function After(env: Env, s: Hub, es: seq<Event>): Hub
    requires IsRun(env, s, es)
    decreases |es|
  {
    if es == [] then s else After(env, Apply(env, s, es[0]), es[1..])
  }

  predicate Initial(s: Hub) {
    s.tables.grants == map[] && s.tables.codes == map[] && s.tables.tokens == map[] &&
    s.claims == map[] && s.clock > 0 && s.reqs == map[]
  }

  // ---------------------------------------------------------------- invariant

  /** The code hash a request holds a claim on, and since when. */
  function Claim(p: Phase): Option<(string, int)> {
    match p
    case XClaimed(x, _, at) => Some((x.code, at))
    case XVerified(x, _, at) => Some((x.code, at))
    case Issue(FromCode(h, at), _, _) => Some((h, at))
    case IssueRefresh(FromCode(h, at), _, _, _) => Some((h, at))
    case Served(FromCode(h, at), _) => Some((h, at))
    case _ => None
  }

  /** The request has passed every check and entered issuePair for code `h`. */
  predicate ReachedIssue(p: Phase, h: string) {
    (p.Issue? || p.IssueRefresh? || p.Served?) && p.origin.FromCode? && p.origin.hash == h
  }

  predicate PastExpiryCheck(p: Phase) {
    p.XVerified? || p.Issue? || p.IssueRefresh? || p.Served?
  }

  /** The rows a request remembers agree with the tables, up to flags. */
  predicate Remembers(t: Tables, p: Phase) {
    match p
    case XRead(x, code) => KnownCode(t, x.code, code)
    case XReplayTokens(h, code) => KnownCode(t, h, code)
    case XReplayGrant(h, code) => KnownCode(t, h, code)
    case XClaimed(x, code, _) => KnownCode(t, x.code, code)
    case XVerified(x, code, _) => KnownCode(t, x.code, code)
    case RRead(h, _, tok) => KnownToken(t, h, tok)
    case RVerified(h, tok) => KnownToken(t, h, tok)
    case Issue(_, g, b) => Bound(t, g, b)
    case IssueRefresh(_, g, b, _) => Bound(t, g, b)
    case CGranted(g, b, _, _, at) => Bound(t, g, b) && at > 0 && forall h :: h in t.codes ==> t.codes[h].grant != g
    case ATokenRead(h, tok) => KnownToken(t, h, tok)
    case AGrantRead(h, tok) => KnownToken(t, h, tok)
    case Accepted(h, tok) => KnownToken(t, h, tok)
    case TRead(h, tok) => KnownToken(t, h, tok)
    case _ => true
  }

  /** A claim was taken while its code existed. It is still in the claim map
      unless twice the code lifetime has passed since. */
  predicate ClaimSound(s: Hub, h: string, at: int, p: Phase) {
    && h in s.tables.codes
    && s.tables.codes[h].expires - AUTH_CODE_TTL <= at <= s.clock
    && ((h in s.claims && s.claims[h] == at) || at + 2 * AUTH_CODE_TTL < s.clock)
    && (PastExpiryCheck(p) ==> at <= s.tables.codes[h].expires)
  }

  predicate ClaimOk(s: Hub, p: Phase) {
    Claim(p).Some? ==> ClaimSound(s, Claim(p).value.0, Claim(p).value.1, p)
  }

  predicate RequestOk(s: Hub, p: Phase) {
    Remembers(s.tables, p) && ClaimOk(s, p) && (p.CGranted? ==> p.at <= s.clock)
  }

  /** Two requests never hold claims on one code closer than twice its lifetime. */
  predicate ClaimsApart(p: Phase, q: Phase) {
    Claim(p).Some? && Claim(q).Some? && Claim(p).value.0 == Claim(q).value.0 ==>
      var a, b := Claim(p).value.1, Claim(q).value.1;
      a + 2 * AUTH_CODE_TTL < b || b + 2 * AUTH_CODE_TTL < a
  }

  /** Consents still on their way to a code are for distinct grants. */
  predicate ConsentsApart(p: Phase, q: Phase) {
    p.CGranted? && q.CGranted? ==> p.grant != q.grant
  }

  /** Codes exist only from the moment they are created. */
  ghost predicate CodesPast(s: Hub) {
    forall h :: h in s.tables.codes ==> s.tables.codes[h].expires - AUTH_CODE_TTL <= s.clock
  }

  ghost predicate Inv(s: Hub) {
    && RowsBound(s.tables)
    && CodesPast(s)
    && s.clock > 0
    && (forall h :: h in s.claims ==> s.claims[h] <= s.clock)
    && (forall i :: i in s.reqs ==> RequestOk(s, s.reqs[i]))
    && (forall i, j :: i in s.reqs && j in s.reqs && i != j ==>
          ClaimsApart(s.reqs[i], s.reqs[j]) && ConsentsApart(s.reqs[i], s.reqs[j]))
  }
}

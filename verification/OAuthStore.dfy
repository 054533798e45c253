/** The OAuth tables of the hub's store, and the store operations the OAuth
    handlers call. Rows are never deleted: a revoked token or grant keeps its
    row with `revoked` set and reads back as not found, and a code keeps its row
    with `consumed` set. Times are integer nanoseconds. */
module OAuthStore {

  datatype Option<+T> = None | Some(value: T)

  const SECOND: int := 1_000_000_000
  const AUTH_CODE_TTL: int := 60 * SECOND
  const ACCESS_TOKEN_TTL: int := 15 * 60 * SECOND
  const REFRESH_TOKEN_TTL: int := 30 * 24 * 3600 * SECOND

  /** The zero time.Time, which the handlers read as "does not expire". */
  const ZERO_TIME: int := 0

  /** Everything a consent fixes: who, for which client, and for what. */
  datatype Binding = Binding(client: string, user: string, resource: string, scope: string, project: string)

  datatype Grant = Grant(binding: Binding, revoked: bool)

  datatype AuthCode = AuthCode(
    grant: string, binding: Binding, redirect: string, challenge: string,
    expires: int, consumed: bool)

  datatype Kind = AccessKind | RefreshKind

  datatype Token = Token(kind: Kind, grant: string, binding: Binding, expires: int, revoked: bool)

  /** `users` maps a user id to whether the account is disabled. */
  datatype Tables = Tables(
    grants: map<string, Grant>, codes: map<string, AuthCode>,
    tokens: map<string, Token>, users: map<string, bool>)

  predicate Expired(expires: int, now: int) {
    expires != ZERO_TIME && expires < now
  }

  function GetAuthCode(t: Tables, hash: string): Option<AuthCode> {
    if hash in t.codes then Some(t.codes[hash]) else None
  }

  /** A revoked token is indistinguishable from one that never existed. */
  function GetTokenByHash(t: Tables, hash: string): Option<Token> {
    if hash in t.tokens && !t.tokens[hash].revoked then Some(t.tokens[hash]) else None
  }

  function GetGrant(t: Tables, grant: string): Option<Grant> {
    if grant in t.grants && !t.grants[grant].revoked then Some(t.grants[grant]) else None
  }

  function CreateGrant(t: Tables, id: string, b: Binding): Tables {
    t.(grants := t.grants[id := Grant(b, false)])
  }

  function CreateAuthCode(t: Tables, hash: string, code: AuthCode): Tables {
    t.(codes := t.codes[hash := code])
  }

  function CreateToken(t: Tables, hash: string, tok: Token): Tables {
    t.(tokens := t.tokens[hash := tok])
  }

  /** Tombstones the live tokens of `grant`. A complete call reaches all of
      them; one that fails midway reaches only those in `hit`. */
  function RevokeTokensForGrant(t: Tables, grant: string, complete: bool, hit: set<string>): Tables {
    t.(tokens := map h | h in t.tokens ::
        if t.tokens[h].grant == grant && (complete || h in hit)
        then t.tokens[h].(revoked := true) else t.tokens[h])
  }

  /** Scoped by user: revoking somebody else's grant is a not-found. */
  function RevokeGrant(t: Tables, user: string, grant: string): Tables {
    if GetGrant(t, grant).Some? && t.grants[grant].binding.user == user
    then t.(grants := t.grants[grant := t.grants[grant].(revoked := true)])
    else t
  }

  function MarkConsumed(t: Tables, hash: string): Tables
    requires hash in t.codes
  {
    t.(codes := t.codes[hash := t.codes[hash].(consumed := true)])
  }

  /** The write half of the last-used touch: it re-inserts the row as live. */
  function TouchToken(t: Tables, hash: string): Tables
    requires hash in t.tokens
  {
    t.(tokens := t.tokens[hash := t.tokens[hash].(revoked := false)])
  }

  /** One store write, as a handler issues it. */
  datatype Write =
    | NoWrite
    | PutGrant(id: string, b: Binding)
    | PutCode(hash: string, code: AuthCode)
    | PutToken(hash: string, tok: Token)
    | RevokeTokens(grant: string, complete: bool, hit: set<string>)
    | RevokeOneGrant(user: string, grant: string)
    | Consume(hash: string)
    | Touch(hash: string)

  function Perform(t: Tables, w: Write): Tables {
    match w
    case NoWrite => t
    case PutGrant(id, b) => CreateGrant(t, id, b)
    case PutCode(h, code) => CreateAuthCode(t, h, code)
    case PutToken(h, tok) => CreateToken(t, h, tok)
    case RevokeTokens(g, complete, hit) => RevokeTokensForGrant(t, g, complete, hit)
    case RevokeOneGrant(user, g) => RevokeGrant(t, user, g)
    case Consume(h) => if h in t.codes then MarkConsumed(t, h) else t
    case Touch(h) => if h in t.tokens then TouchToken(t, h) else t
  }

  predicate Bound(t: Tables, grant: string, b: Binding) {
    grant in t.grants && t.grants[grant].binding == b
  }

  /** `code` is the row stored under `hash`, up to its consumed flag. */
  predicate KnownCode(t: Tables, hash: string, code: AuthCode) {
    hash in t.codes && t.codes[hash] == code.(consumed := t.codes[hash].consumed)
  }

  predicate KnownToken(t: Tables, hash: string, tok: Token) {
    hash in t.tokens && t.tokens[hash] == tok.(revoked := t.tokens[hash].revoked)
  }

  /** Every code and token carries exactly the binding of its grant, and no
      grant has two codes. */
  ghost predicate RowsBound(t: Tables) {
    && (forall h :: h in t.codes ==>
          Bound(t, t.codes[h].grant, t.codes[h].binding) && t.codes[h].expires > AUTH_CODE_TTL)
    && (forall h :: h in t.tokens ==> Bound(t, t.tokens[h].grant, t.tokens[h].binding))
    && (forall h1, h2 :: h1 in t.codes && h2 in t.codes && t.codes[h1].grant == t.codes[h2].grant ==> h1 == h2)
  }

  /** What every store operation keeps: rows stay, bindings never change, and a
      revoked grant is never live again. Token revocation is deliberately not
      in this list: TouchToken can undo it. */
  ghost predicate Extends(t: Tables, t': Tables) {
    && (forall g :: g in t.grants ==> g in t'.grants && t'.grants[g].binding == t.grants[g].binding
                                      && (t.grants[g].revoked ==> t'.grants[g].revoked))
    && (forall h :: h in t.codes ==> KnownCode(t', h, t.codes[h]))
    && (forall h :: h in t.tokens ==> KnownToken(t', h, t.tokens[h]))
  }
}

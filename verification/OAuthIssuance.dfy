/** What a request that issues tokens has been through, told from the moments of
    its run: the code it read and the proof it gave, or the refresh token, and
    the rows it stored. */
module OAuthIssuance {
  import opened OAuthStore
  import opened OAuthProtocol
  import opened OAuthHistory

  // ------------------------------------------------------------- the moments

  function At(env: Env, s0: Hub, es: seq<Event>, n: nat): Tables
    requires IsRun(env, s0, es) && n <= |es|
  {
    StateAt(env, s0, es, n).tables
  }

  function PhaseAt(env: Env, s0: Hub, es: seq<Event>, k: nat, n: nat): Option<Phase>
    requires IsRun(env, s0, es) && n <= |es|
  {
    var s := StateAt(env, s0, es, n);
    if k in s.reqs then Some(s.reqs[k]) else None
  }

  /** At step `n` the exchange `x` read this row for its code. */
  predicate CodeReadAt(env: Env, s0: Hub, es: seq<Event>, k: nat, x: ExchangeForm, code: AuthCode, n: nat)
    requires IsRun(env, s0, es)
  {
    Steps(es, n, k) && PhaseAt(env, s0, es, k, n) == Some(XStart(x))
    && x.code in At(env, s0, es, n).codes && At(env, s0, es, n).codes[x.code] == code
  }

  /** At step `n` the row had not expired, the client, redirect and resource were
      the row's, and the verifier hashed to its challenge. */
  predicate CodeProvedAt(env: Env, es: seq<Event>, k: nat, x: ExchangeForm, code: AuthCode, n: nat) {
    Steps(es, n, k)
    && (code.expires == 0 || es[n].now <= code.expires)
    && x.client == code.binding.client && x.redirect == code.redirect
    && (x.resource == "" || x.resource == code.binding.resource)
    && code.challenge != "" && 43 <= |x.verifier| <= 128 && env.s256(x.verifier) == code.challenge
  }

  /** At step `n` the row was not consumed; after it, it is, unless the write was
      lost. */
  predicate CodeSpentAt(env: Env, s0: Hub, es: seq<Event>, k: nat, x: ExchangeForm, n: nat)
    requires IsRun(env, s0, es)
  {
    Steps(es, n, k)
    && x.code in At(env, s0, es, n).codes && !At(env, s0, es, n).codes[x.code].consumed
    && (es[n].choice.persists ==>
          x.code in At(env, s0, es, n + 1).codes && At(env, s0, es, n + 1).codes[x.code].consumed)
  }

  /** At step `n` the refresh read this row, live. */
  predicate TokenReadAt(env: Env, s0: Hub, es: seq<Event>, k: nat, hash: string, client: string, tok: Token, n: nat)
    requires IsRun(env, s0, es)
  {
    Steps(es, n, k) && PhaseAt(env, s0, es, k, n) == Some(RStart(hash, client))
    && hash in At(env, s0, es, n).tokens && At(env, s0, es, n).tokens[hash] == tok && !tok.revoked
  }

  /** At step `n` it was an unexpired refresh token of this client. */
  predicate TokenProvedAt(es: seq<Event>, k: nat, client: string, tok: Token, n: nat) {
    Steps(es, n, k) && tok.kind == RefreshKind && client == tok.binding.client
    && (tok.expires == 0 || es[n].now <= tok.expires)
  }

  /** After step `n` the grant has no live token. */
  ghost predicate FamilyGoneAt(env: Env, s0: Hub, es: seq<Event>, k: nat, grant: string, n: nat)
    requires IsRun(env, s0, es)
  {
    Steps(es, n, k) && NoneLive(At(env, s0, es, n + 1), grant)
  }

  /** Step `n`, at time `at`, stores a new live token of this kind that lives this
      long after `since`. */
  predicate StoredAt(env: Env, s0: Hub, es: seq<Event>, k: nat, kind: Kind, grant: string, b: Binding, expires: int,
      n: nat)
    requires IsRun(env, s0, es)
  {
    Steps(es, n, k) && es[n].choice.drawn !in At(env, s0, es, n).tokens
    && At(env, s0, es, n + 1)
       == At(env, s0, es, n).(tokens :=
           At(env, s0, es, n).tokens[es[n].choice.drawn := Token(kind, grant, b, expires, false)])
  }

  predicate AccessAt(env: Env, s0: Hub, es: seq<Event>, k: nat, grant: string, b: Binding, at: int, n: nat)
    requires IsRun(env, s0, es)
  {
    StoredAt(env, s0, es, k, AccessKind, grant, b, at + 15 * 60 * SECOND, n) && es[n].now == at
  }

  predicate RefreshAt(env: Env, s0: Hub, es: seq<Event>, k: nat, grant: string, b: Binding, at: int, n: nat)
    requires IsRun(env, s0, es)
  {
    StoredAt(env, s0, es, k, RefreshKind, grant, b, at + 30 * 24 * 3600 * SECOND, n)
  }

  // ---------------------------------------------------------------- in order

  ghost predicate CodeRead(env: Env, s0: Hub, es: seq<Event>, k: nat, x: ExchangeForm, code: AuthCode, before: nat)
    requires IsRun(env, s0, es)
  {
    exists n: nat :: n < before && CodeReadAt(env, s0, es, k, x, code, n)
  }

  ghost predicate CodeProved(env: Env, s0: Hub, es: seq<Event>, k: nat, x: ExchangeForm, code: AuthCode, before: nat)
    requires IsRun(env, s0, es)
  {
    exists n: nat :: n < before && CodeProvedAt(env, es, k, x, code, n) && CodeRead(env, s0, es, k, x, code, n)
  }

  ghost predicate CodeSpent(env: Env, s0: Hub, es: seq<Event>, k: nat, x: ExchangeForm, code: AuthCode, before: nat)
    requires IsRun(env, s0, es)
  {
    exists n: nat :: n < before && CodeSpentAt(env, s0, es, k, x, n) && CodeProved(env, s0, es, k, x, code, n)
  }

  ghost predicate TokenRead(env: Env, s0: Hub, es: seq<Event>, k: nat, hash: string, client: string, tok: Token,
      before: nat)
    requires IsRun(env, s0, es)
  {
    exists n: nat :: n < before && TokenReadAt(env, s0, es, k, hash, client, tok, n)
  }

  ghost predicate TokenProved(env: Env, s0: Hub, es: seq<Event>, k: nat, hash: string, client: string, tok: Token,
      before: nat)
    requires IsRun(env, s0, es)
  {
    exists n: nat :: n < before && TokenProvedAt(es, k, client, tok, n)
        && TokenRead(env, s0, es, k, hash, client, tok, n)
  }

  ghost predicate TokenSpent(env: Env, s0: Hub, es: seq<Event>, k: nat, hash: string, client: string, tok: Token,
      before: nat)
    requires IsRun(env, s0, es)
  {
    exists n: nat :: n < before && FamilyGoneAt(env, s0, es, k, tok.grant, n)
                     && TokenProved(env, s0, es, k, hash, client, tok, n)
  }

  /** The request has earned a pair for this grant, by a code or a refresh token. */
  ghost predicate Earned(env: Env, s0: Hub, es: seq<Event>, k: nat, o: Origin, grant: string, b: Binding, before: nat)
    requires IsRun(env, s0, es)
  {
    match o
    case FromCode(h, _) =>
      exists x, code :: CodeSpent(env, s0, es, k, x, code, before) && x.code == h && code.grant == grant
          && code.binding == b
    case FromRefresh(h) =>
      exists client, tok :: TokenSpent(env, s0, es, k, h, client, tok, before) && tok.grant == grant && tok.binding == b
  }

  ghost predicate AccessGiven(env: Env, s0: Hub, es: seq<Event>, k: nat, o: Origin, grant: string, b: Binding, at: int,
      before: nat)
    requires IsRun(env, s0, es)
  {
    exists n: nat :: n < before && AccessAt(env, s0, es, k, grant, b, at, n) && Earned(env, s0, es, k, o, grant, b, n)
  }

  /** The pair: an access token, and for an offline scope a refresh token whose
      life is counted from the access token's issue. */
  ghost predicate PairGiven(env: Env, s0: Hub, es: seq<Event>, k: nat, o: Origin, grant: string, b: Binding, at: int,
      before: nat)
    requires IsRun(env, s0, es)
  {
    if env.hasOffline(b.scope) then
      exists n: nat :: n < before && RefreshAt(env, s0, es, k, grant, b, at, n)
          && AccessGiven(env, s0, es, k, o, grant, b, at, n)
    else AccessGiven(env, s0, es, k, o, grant, b, at, before)
  }

  // ------------------------------------------------------------- the climb

  ghost predicate Climbed(env: Env, s0: Hub, es: seq<Event>, k: nat, p: Phase, n: nat)
    requires IsRun(env, s0, es)
  {
    match p
    case XRead(x, code) => CodeRead(env, s0, es, k, x, code, n)
    case XClaimed(x, code, _) => CodeRead(env, s0, es, k, x, code, n)
    case XVerified(x, code, _) => CodeProved(env, s0, es, k, x, code, n)
    case RRead(h, client, tok) => TokenRead(env, s0, es, k, h, client, tok, n)
    case RVerified(h, tok) => exists client :: TokenProved(env, s0, es, k, h, client, tok, n)
    case Issue(o, grant, b) => Earned(env, s0, es, k, o, grant, b, n)
    case IssueRefresh(o, grant, b, at) => AccessGiven(env, s0, es, k, o, grant, b, at, n) && env.hasOffline(b.scope)
    case Served(o, ok) =>
      if ok then exists grant, b, at, m: nat :: m <= n && PairGiven(env, s0, es, k, o, grant, b, at, m)
      else exists grant, b, m: nat :: m <= n && Earned(env, s0, es, k, o, grant, b, m)
    case _ => true
  }

  lemma EarnedStays(env: Env, s0: Hub, es: seq<Event>, k: nat, o: Origin, grant: string, b: Binding, m: nat, n: nat)
    requires IsRun(env, s0, es) && Earned(env, s0, es, k, o, grant, b, m) && m <= n
    ensures Earned(env, s0, es, k, o, grant, b, n)
  {
    match o {
      case FromCode(h, _) =>
        var x, code :| CodeSpent(env, s0, es, k, x, code, m) && x.code == h && code.grant == grant && code.binding == b;
        assert CodeSpent(env, s0, es, k, x, code, n);
      case FromRefresh(h) =>
        var client, tok :| TokenSpent(env, s0, es, k, h, client, tok, m) && tok.grant == grant && tok.binding == b;
        assert TokenSpent(env, s0, es, k, h, client, tok, n);
    }
  }

  lemma AccessEarned(env: Env, s0: Hub, es: seq<Event>, k: nat, o: Origin, grant: string, b: Binding, at: int, m: nat,
      n: nat)
    requires IsRun(env, s0, es) && AccessGiven(env, s0, es, k, o, grant, b, at, m) && m <= n
    ensures Earned(env, s0, es, k, o, grant, b, n)
  {
    var i: nat :| i < m && AccessAt(env, s0, es, k, grant, b, at, i) && Earned(env, s0, es, k, o, grant, b, i);
    EarnedStays(env, s0, es, k, o, grant, b, i, n);
  }

  lemma ServedWell(env: Env, s0: Hub, es: seq<Event>, k: nat, o: Origin, grant: string, b: Binding, at: int, n: nat)
    requires IsRun(env, s0, es) && PairGiven(env, s0, es, k, o, grant, b, at, n)
    ensures Climbed(env, s0, es, k, Served(o, true), n)
  {
  }

  lemma ServedInVain(env: Env, s0: Hub, es: seq<Event>, k: nat, o: Origin, grant: string, b: Binding, n: nat)
    requires IsRun(env, s0, es) && Earned(env, s0, es, k, o, grant, b, n)
    ensures Climbed(env, s0, es, k, Served(o, false), n)
  {
  }

  lemma RefreshProofStays(env: Env, s0: Hub, es: seq<Event>, k: nat, p: Phase, n: nat)
    requires IsRun(env, s0, es) && p.RVerified? && Climbed(env, s0, es, k, p, n)
    ensures Climbed(env, s0, es, k, p, n + 1)
  {
    var client :| TokenProved(env, s0, es, k, p.hash, client, p.tok, n);
    assert TokenProved(env, s0, es, k, p.hash, client, p.tok, n + 1);
  }

  lemma ClimbedStays(env: Env, s0: Hub, es: seq<Event>, k: nat, p: Phase, n: nat)
    requires IsRun(env, s0, es) && Climbed(env, s0, es, k, p, n)
    ensures Climbed(env, s0, es, k, p, n + 1)
  {
    if p.RVerified? { RefreshProofStays(env, s0, es, k, p, n); }
    if p.Issue? { EarnedStays(env, s0, es, k, p.origin, p.grant, p.binding, n, n + 1); }
  }

  /** The phase a step of request `k` at `n` leaves. */
  lemma StepsTo(env: Env, s0: Hub, es: seq<Event>, k: nat, n: nat) returns (s: Hub, p: Phase, c: Choice)
    requires IsRun(env, s0, es) && Steps(es, n, k)
    ensures s == StateAt(env, s0, es, n) && k in s.reqs && p == s.reqs[k] && !IsFinal(p) && c == es[n].choice
    ensures s.clock <= es[n].now && FreshFor(s.tables, p, c.drawn)
    ensures var f := StepEffect(env, s, p, es[n].now, c);
            At(env, s0, es, n + 1) == Perform(s.tables, f.write) && PhaseAt(env, s0, es, k, n + 1) == Some(f.phase)
  {
    StateAtNext(env, s0, es, n);
    s, c := StateAt(env, s0, es, n), es[n].choice;
    p := s.reqs[k];
  }

  lemma ExchangeClimbs(env: Env, s0: Hub, es: seq<Event>, k: nat, n: nat, s: Hub, p: Phase)
    requires IsRun(env, s0, es) && Steps(es, n, k) && s == StateAt(env, s0, es, n) && k in s.reqs && s.reqs[k] == p
    requires p.XStart? || p.XRead? || p.XReplayTokens? || p.XReplayGrant? || p.XClaimed?
    requires Climbed(env, s0, es, k, p, n)
    ensures Climbed(env, s0, es, k, ExchangeStep(env, s, p, es[n].now, es[n].choice).phase, n + 1)
  {
    var q := ExchangeStep(env, s, p, es[n].now, es[n].choice).phase;
    match q {
      case XRead(x, code) => assert CodeReadAt(env, s0, es, k, x, code, n);
      case XClaimed(x, code, _) => assert CodeRead(env, s0, es, k, x, code, n);
      case XVerified(x, code, _) => assert CodeProvedAt(env, es, k, x, code, n);
      case _ =>
    }
  }

  lemma SpendClimbs(env: Env, s0: Hub, es: seq<Event>, k: nat, n: nat, s: Hub, p: Phase)
    requires IsRun(env, s0, es) && Steps(es, n, k) && s == StateAt(env, s0, es, n) && k in s.reqs && s.reqs[k] == p
    requires p.XVerified? && Climbed(env, s0, es, k, p, n)
    requires var f := ExchangeStep(env, s, p, es[n].now, es[n].choice);
             At(env, s0, es, n + 1) == Perform(s.tables, f.write)
    ensures Climbed(env, s0, es, k, ExchangeStep(env, s, p, es[n].now, es[n].choice).phase, n + 1)
  {
    var q := ExchangeStep(env, s, p, es[n].now, es[n].choice).phase;
    if q.Issue? {
      assert CodeSpentAt(env, s0, es, k, p.x, n);
      assert CodeSpent(env, s0, es, k, p.x, p.code, n + 1);
    }
  }

  lemma RefreshReadClimbs(env: Env, s0: Hub, es: seq<Event>, k: nat, n: nat, s: Hub, p: Phase)
    requires IsRun(env, s0, es) && Steps(es, n, k) && s == StateAt(env, s0, es, n) && k in s.reqs && s.reqs[k] == p
    requires (p.RStart? || p.RRead?) && Climbed(env, s0, es, k, p, n)
    ensures Climbed(env, s0, es, k, RotateStep(s, p, es[n].now, es[n].choice).phase, n + 1)
  {
    var q := RotateStep(s, p, es[n].now, es[n].choice).phase;
    match q {
      case RRead(h, client, tok) => assert TokenReadAt(env, s0, es, k, h, client, tok, n);
      case RVerified(h, tok) =>
        assert TokenProvedAt(es, k, p.client, tok, n);
        assert TokenProved(env, s0, es, k, h, p.client, tok, n + 1);
      case _ =>
    }
  }

  lemma RotateClimbs(env: Env, s0: Hub, es: seq<Event>, k: nat, n: nat, s: Hub, p: Phase)
    requires IsRun(env, s0, es) && Steps(es, n, k) && s == StateAt(env, s0, es, n)
    requires p.RVerified? && Climbed(env, s0, es, k, p, n)
    requires At(env, s0, es, n + 1) == Perform(s.tables, RotateStep(s, p, es[n].now, es[n].choice).write)
    ensures Climbed(env, s0, es, k, RotateStep(s, p, es[n].now, es[n].choice).phase, n + 1)
  {
    if es[n].choice.ok {
      var client :| TokenProved(env, s0, es, k, p.hash, client, p.tok, n);
      RevokeChangesIff(s.tables, p.tok.grant, es[n].choice.hit);
      assert FamilyGoneAt(env, s0, es, k, p.tok.grant, n);
      assert TokenSpent(env, s0, es, k, p.hash, client, p.tok, n + 1);
    }
  }

  /** Storing one new token. */
  lemma RowStored(env: Env, s0: Hub, es: seq<Event>, k: nat, n: nat, tok: Token)
    requires IsRun(env, s0, es) && Steps(es, n, k) && !tok.revoked
    requires es[n].choice.drawn !in At(env, s0, es, n).tokens
    requires At(env, s0, es, n + 1) == Perform(At(env, s0, es, n), PutToken(es[n].choice.drawn, tok))
    ensures StoredAt(env, s0, es, k, tok.kind, tok.grant, tok.binding, tok.expires, n)
  {
  }

  lemma AccessClimbs(env: Env, s0: Hub, es: seq<Event>, k: nat, n: nat, s: Hub, p: Phase)
    requires IsRun(env, s0, es) && Steps(es, n, k) && s == StateAt(env, s0, es, n)
    requires p.Issue? && es[n].choice.drawn !in s.tables.tokens
    requires Earned(env, s0, es, k, p.origin, p.grant, p.binding, n)
    requires var f := IssueStep(env, s, p, es[n].now, es[n].choice);
             At(env, s0, es, n + 1) == Perform(s.tables, f.write)
    ensures if es[n].choice.ok then AccessGiven(env, s0, es, k, p.origin, p.grant, p.binding, es[n].now, n + 1)
            else Earned(env, s0, es, k, p.origin, p.grant, p.binding, n + 1)
  {
    if es[n].choice.ok {
      RowStored(env, s0, es, k, n, Token(AccessKind, p.grant, p.binding, es[n].now + ACCESS_TOKEN_TTL, false));
      assert AccessAt(env, s0, es, k, p.grant, p.binding, es[n].now, n);
    } else {
      EarnedStays(env, s0, es, k, p.origin, p.grant, p.binding, n, n + 1);
    }
  }

  lemma PairNow(env: Env, s0: Hub, es: seq<Event>, k: nat, o: Origin, grant: string, b: Binding, at: int, n: nat)
    requires IsRun(env, s0, es) && RefreshAt(env, s0, es, k, grant, b, at, n) && env.hasOffline(b.scope)
    requires AccessGiven(env, s0, es, k, o, grant, b, at, n)
    ensures PairGiven(env, s0, es, k, o, grant, b, at, n + 1)
  {
  }

  lemma RefreshStored(env: Env, s0: Hub, es: seq<Event>, k: nat, n: nat, s: Hub, p: Phase)
    requires IsRun(env, s0, es) && Steps(es, n, k) && s == StateAt(env, s0, es, n) && p.IssueRefresh?
    requires es[n].choice.ok && es[n].choice.drawn !in s.tables.tokens
    requires At(env, s0, es, n + 1) == Perform(s.tables, IssueStep(env, s, p, es[n].now, es[n].choice).write)
    ensures RefreshAt(env, s0, es, k, p.grant, p.binding, p.issuedAt, n)
  {
    RowStored(env, s0, es, k, n, Token(RefreshKind, p.grant, p.binding, p.issuedAt + REFRESH_TOKEN_TTL, false));
  }

  lemma AccessLeads(env: Env, s0: Hub, es: seq<Event>, k: nat, n: nat, s: Hub, p: Phase)
    requires IsRun(env, s0, es) && Steps(es, n, k) && s == StateAt(env, s0, es, n)
    requires p.Issue? && Climbed(env, s0, es, k, p, n) && es[n].choice.drawn !in s.tables.tokens
    requires At(env, s0, es, n + 1) == Perform(s.tables, IssueStep(env, s, p, es[n].now, es[n].choice).write)
    ensures Climbed(env, s0, es, k, IssueStep(env, s, p, es[n].now, es[n].choice).phase, n + 1)
  {
    AccessClimbs(env, s0, es, k, n, s, p);
    if es[n].choice.ok && !env.hasOffline(p.binding.scope) {
      assert PairGiven(env, s0, es, k, p.origin, p.grant, p.binding, es[n].now, n + 1);
    }
  }

  lemma StepClimbs(env: Env, s0: Hub, es: seq<Event>, k: nat, n: nat)
    requires IsRun(env, s0, es) && Steps(es, n, k)
    requires PhaseAt(env, s0, es, k, n).Some? && Climbed(env, s0, es, k, PhaseAt(env, s0, es, k, n).value, n)
    ensures PhaseAt(env, s0, es, k, n + 1).Some? && Climbed(env, s0, es, k, PhaseAt(env, s0, es, k, n + 1).value, n + 1)
  {
    var s, p, c := StepsTo(env, s0, es, k, n);
    if p.XVerified? { SpendClimbs(env, s0, es, k, n, s, p); }
    else if p.XStart? || p.XRead? || p.XReplayTokens? || p.XReplayGrant? || p.XClaimed? {
      ExchangeClimbs(env, s0, es, k, n, s, p);
    }
    else if p.RStart? || p.RRead? { RefreshReadClimbs(env, s0, es, k, n, s, p); }
    else if p.RVerified? { RotateClimbs(env, s0, es, k, n, s, p); }
    else if p.Issue? { AccessLeads(env, s0, es, k, n, s, p); }
    else if p.IssueRefresh? {
      var o, grant, b, at := p.origin, p.grant, p.binding, p.issuedAt;
      if c.ok {
        RefreshStored(env, s0, es, k, n, s, p);
        PairNow(env, s0, es, k, o, grant, b, at, n);
        ServedWell(env, s0, es, k, o, grant, b, at, n + 1);
      } else {
        AccessEarned(env, s0, es, k, o, grant, b, at, n, n + 1);
        ServedInVain(env, s0, es, k, o, grant, b, n + 1);
      }
    }
  }

  lemma {:induction false} ClimbedAlways(env: Env, s0: Hub, es: seq<Event>, k: nat, n: nat)
    requires IsRun(env, s0, es) && n <= |es| && k !in s0.reqs
    ensures PhaseAt(env, s0, es, k, n).Some? ==> Climbed(env, s0, es, k, PhaseAt(env, s0, es, k, n).value, n)
  {
    if n > 0 {
      ClimbedAlways(env, s0, es, k, n - 1);
      StateAtNext(env, s0, es, n - 1);
      var s := StateAt(env, s0, es, n - 1);
      if Steps(es, n - 1, k) {
        StepClimbs(env, s0, es, k, n - 1);
      } else if k in s.reqs {
        OthersKeep(env, s, es[n - 1], k);
        ClimbedStays(env, s0, es, k, s.reqs[k], n - 1);
      }
    }
  }

  // ------------------------------------------------------------- main results

  /** The request is issuing tokens, or has done so or failed to. */
  predicate Issues(p: Phase) { p.Issue? || p.IssueRefresh? || p.Served? }

  lemma IssuesEarned(env: Env, s0: Hub, es: seq<Event>, k: nat) returns (grant: string, b: Binding)
    requires IsRun(env, s0, es) && k !in s0.reqs
    requires k in After(env, s0, es).reqs && Issues(After(env, s0, es).reqs[k])
    ensures Earned(env, s0, es, k, After(env, s0, es).reqs[k].origin, grant, b, |es|)
    ensures var p := After(env, s0, es).reqs[k]; !p.Served? ==> p.grant == grant && p.binding == b
  {
    var n := |es|;
    ClimbedAlways(env, s0, es, k, n);
    StateAtEnd(env, s0, es);
    match After(env, s0, es).reqs[k] {
      case Issue(o, g, c) => grant, b := g, c;
      case IssueRefresh(o, g, c, at) =>
        AccessEarned(env, s0, es, k, o, g, c, at, n, n);
        grant, b := g, c;
      case Served(o, ok) =>
        if ok {
          var g, c, at, m: nat :| m <= n && PairGiven(env, s0, es, k, o, g, c, at, m);
          PairEarned(env, s0, es, k, o, g, c, at, m, n);
          grant, b := g, c;
        } else {
          var g, c, m: nat :| m <= n && Earned(env, s0, es, k, o, g, c, m);
          EarnedStays(env, s0, es, k, o, g, c, m, n);
          grant, b := g, c;
        }
    }
  }

  lemma PairEarned(env: Env, s0: Hub, es: seq<Event>, k: nat, o: Origin, grant: string, b: Binding, at: int, m: nat,
      n: nat)
    requires IsRun(env, s0, es) && PairGiven(env, s0, es, k, o, grant, b, at, m) && m <= n
    ensures Earned(env, s0, es, k, o, grant, b, n)
  {
    if env.hasOffline(b.scope) {
      var i: nat :| i < m && RefreshAt(env, s0, es, k, grant, b, at, i)
          && AccessGiven(env, s0, es, k, o, grant, b, at, i);
      AccessEarned(env, s0, es, k, o, grant, b, at, i, n);
    } else {
      AccessEarned(env, s0, es, k, o, grant, b, at, m, n);
    }
  }

  /** Over every run: a request that issues tokens for a code has, in this order,
      read the code's row, shown the row's client, redirect, resource and the
      verifier of its challenge before the row expired, and met the row
      unconsumed. */
  lemma CodeIsProved(env: Env, s0: Hub, es: seq<Event>, k: nat)
    returns (x: ExchangeForm, code: AuthCode, n1: nat, n2: nat, n3: nat)
    requires IsRun(env, s0, es) && k !in s0.reqs && k in After(env, s0, es).reqs
    requires var p := After(env, s0, es).reqs[k]; Issues(p) && p.origin.FromCode?
    ensures n1 < n2 < n3 < |es| && x.code == After(env, s0, es).reqs[k].origin.hash
    ensures CodeReadAt(env, s0, es, k, x, code, n1)
    ensures CodeProvedAt(env, es, k, x, code, n2)
    ensures CodeSpentAt(env, s0, es, k, x, n3)
    ensures var p := After(env, s0, es).reqs[k]; !p.Served? ==> p.grant == code.grant && p.binding == code.binding
  {
    var n := |es|;
    var grant, b := IssuesEarned(env, s0, es, k);
    x, code :| CodeSpent(env, s0, es, k, x, code, n) && x.code == After(env, s0, es).reqs[k].origin.hash
               && code.grant == grant && code.binding == b;
    n1, n2, n3 := CodeMoments(env, s0, es, k, x, code, n);
  }

  lemma CodeMoments(env: Env, s0: Hub, es: seq<Event>, k: nat, x: ExchangeForm, code: AuthCode, n: nat)
    returns (n1: nat, n2: nat, n3: nat)
    requires IsRun(env, s0, es) && CodeSpent(env, s0, es, k, x, code, n)
    ensures n1 < n2 < n3 < n && CodeReadAt(env, s0, es, k, x, code, n1) && CodeProvedAt(env, es, k, x, code, n2)
    ensures CodeSpentAt(env, s0, es, k, x, n3)
  {
    n3 :| n3 < n && CodeSpentAt(env, s0, es, k, x, n3) && CodeProved(env, s0, es, k, x, code, n3);
    n2 :| n2 < n3 && CodeProvedAt(env, es, k, x, code, n2) && CodeRead(env, s0, es, k, x, code, n2);
    n1 :| n1 < n2 && CodeReadAt(env, s0, es, k, x, code, n1);
  }

  /** One that issues tokens for a refresh token has read it live, shown that it is
      an unexpired refresh token of its own client, and ended its whole family. */
  lemma RefreshIsProved(env: Env, s0: Hub, es: seq<Event>, k: nat)
    returns (client: string, tok: Token, n1: nat, n2: nat, n3: nat)
    requires IsRun(env, s0, es) && k !in s0.reqs && k in After(env, s0, es).reqs
    requires var p := After(env, s0, es).reqs[k]; Issues(p) && p.origin.FromRefresh?
    ensures n1 < n2 < n3 < |es|
    ensures TokenReadAt(env, s0, es, k, After(env, s0, es).reqs[k].origin.hash, client, tok, n1)
    ensures TokenProvedAt(es, k, client, tok, n2)
    ensures FamilyGoneAt(env, s0, es, k, tok.grant, n3)
    ensures var p := After(env, s0, es).reqs[k]; !p.Served? ==> p.grant == tok.grant && p.binding == tok.binding
  {
    var n, h := |es|, After(env, s0, es).reqs[k].origin.hash;
    var grant, b := IssuesEarned(env, s0, es, k);
    client, tok :| TokenSpent(env, s0, es, k, h, client, tok, n) && tok.grant == grant && tok.binding == b;
    n3 :| n3 < n && FamilyGoneAt(env, s0, es, k, tok.grant, n3) && TokenProved(env, s0, es, k, h, client, tok, n3);
    n2 :| n2 < n3 && TokenProvedAt(es, k, client, tok, n2) && TokenRead(env, s0, es, k, h, client, tok, n2);
    n1 :| n1 < n2 && TokenReadAt(env, s0, es, k, h, client, tok, n1);
  }

  /** One that was served has stored an access token that lives a quarter of an
      hour, having earned it by then, and for an offline scope after it a refresh
      token that lives thirty days from the same moment. */
  lemma ServedPairIsStored(env: Env, s0: Hub, es: seq<Event>, k: nat)
    returns (grant: string, b: Binding, at: int, n1: nat, n2: nat)
    requires IsRun(env, s0, es) && k !in s0.reqs && k in After(env, s0, es).reqs
    requires After(env, s0, es).reqs[k].Served? && After(env, s0, es).reqs[k].ok
    ensures n1 < |es| && AccessAt(env, s0, es, k, grant, b, at, n1)
    ensures Earned(env, s0, es, k, After(env, s0, es).reqs[k].origin, grant, b, n1)
    ensures env.hasOffline(b.scope) ==> n1 < n2 < |es| && RefreshAt(env, s0, es, k, grant, b, at, n2)
  {
    var n, o := |es|, After(env, s0, es).reqs[k].origin;
    ClimbedAlways(env, s0, es, k, n);
    StateAtEnd(env, s0, es);
    var m: nat;
    grant, b, at, m :| m <= n && PairGiven(env, s0, es, k, o, grant, b, at, m);
    if env.hasOffline(b.scope) {
      n2 :| n2 < m && RefreshAt(env, s0, es, k, grant, b, at, n2) && AccessGiven(env, s0, es, k, o, grant, b, at, n2);
      n1 :| n1 < n2 && AccessAt(env, s0, es, k, grant, b, at, n1) && Earned(env, s0, es, k, o, grant, b, n1);
    } else {
      n1 :| n1 < m && AccessAt(env, s0, es, k, grant, b, at, n1) && Earned(env, s0, es, k, o, grant, b, n1);
      n2 := 0;
    }
  }
}

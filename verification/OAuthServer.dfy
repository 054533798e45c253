/** The OAuth handlers as the hub runs them, updating the claim map and the
    store in place. A ghost log relates every call to the protocol: what a
    handler does to the tables is exactly a run of its own request, so the
    process never leaves the states the protocol reaches. */
module OAuthServer {
  import opened OAuthStore
  import opened OAuthProtocol
  import opened OAuthRaces

  /** The in-process claim map behind single use. */
  class CodeClaims {
    var seen: map<string, int>

    constructor ()
      ensures seen == map[]
    {
      seen := map[];
    }

    method Claim(hash: string, now: int) returns (won: bool)
      modifies this
      ensures (seen, won) == ClaimCode(old(seen), hash, now)
    {
      var pending := seen.Keys;
      while pending != {}
        invariant pending <= seen.Keys <= old(seen).Keys
        invariant forall h :: h in old(seen) ==>
                    (h in seen <==> h in pending || now - old(seen)[h] <= 2 * AUTH_CODE_TTL)
        invariant forall h :: h in seen ==> seen[h] == old(seen)[h]
        decreases pending
      {
        var h :| h in pending;
        if now - seen[h] > 2 * AUTH_CODE_TTL {
          seen := seen - {h};
        }
        pending := pending - {h};
      }
      assert seen == Sweep(old(seen), now);
      if hash in seen { return false; }
      seen := seen[hash := now];
      return true;
    }
  }

  /** When each store call or local block of a handler happens, and how it goes. */
  type Script = seq<(int, Choice)>

  function Events(id: nat, script: Script): (es: seq<Event>)
    ensures |es| == |script|
    ensures forall k :: 0 <= k < |es| ==> es[k] == Advance(id, script[k].0, script[k].1)
  {
    seq(|script|, k requires 0 <= k < |script| => Advance(id, script[k].0, script[k].1))
  }

  lemma EventsNext(id: nat, script: Script, k: nat)
    requires k < |script|
    ensures Events(id, script[..k]) + [Advance(id, script[k].0, script[k].1)] == Events(id, script[..k + 1])
  {
  }

  /** The script's times do not run backwards. */
  predicate Ordered(script: Script, now: int) {
    && (forall k :: 0 <= k < |script| ==> now <= script[k].0)
    && (forall k, m :: 0 <= k < m < |script| ==> script[k].0 <= script[m].0)
  }

  /** Drawn token hashes are unused and distinct. */
  predicate Draws(script: Script, used: map<string, Token>) {
    && (forall k :: 0 <= k < |script| ==> script[k].1.drawn !in used)
    && (forall k, m :: 0 <= k < m < |script| ==> script[k].1.drawn != script[m].1.drawn)
  }

  class Process {
    const env: Env
    const claims: CodeClaims
    var codes: map<string, AuthCode>
    var grants: map<string, Grant>
    var tokens: map<string, Token>
    var users: map<string, bool>
    ghost const origin: Hub
    ghost var run: seq<Event>
    ghost var hub: Hub

    ghost predicate Valid()
      reads this, claims
    {
      && Initial(origin) && IsRun(env, origin, run) && After(env, origin, run) == hub
      && hub.tables == Tables(grants, codes, tokens, users)
      && hub.claims == claims.seen
    }

    constructor (env: Env, users: map<string, bool>, ghost now: int)
      requires now > 0
      ensures Valid() && fresh(claims) && this.env == env && hub.reqs == map[] && hub.clock == now
    {
      this.env := env;
      claims := new CodeClaims();
      codes, grants, tokens, this.users := map[], map[], map[], users;
      origin := Hub(Tables(map[], map[], map[], users), map[], now, map[]);
      run, hub := [], Hub(Tables(map[], map[], map[], users), map[], now, map[]);
    }

    /** Records one protocol event of request `id`. */
    ghost method Log(id: nat, now: int, c: Choice)
      requires Initial(origin) && IsRun(env, origin, run) && After(env, origin, run) == hub
      requires Enabled(hub, Advance(id, now, c))
      modifies this`run, this`hub
      ensures Initial(origin) && IsRun(env, origin, run) && After(env, origin, run) == hub
      ensures run == old(run) + [Advance(id, now, c)]
      ensures hub.clock == now
      ensures var f := StepEffect(env, old(hub), old(hub).reqs[id], now, c);
              hub.tables == Perform(old(hub).tables, f.write) && hub.claims == f.claims
              && hub.reqs == old(hub).reqs[id := f.phase]
    {
      RunAppend(env, origin, run, Advance(id, now, c));
      run, hub := run + [Advance(id, now, c)], Apply(env, hub, Advance(id, now, c));
    }

    method RevokeTokensForGrant(grant: string, complete: bool, hit: set<string>)
      modifies this`tokens
      ensures Tables(grants, codes, tokens, users)
              == Perform(Tables(grants, codes, old(tokens), users), RevokeTokens(grant, complete, hit))
    {
      var pending := tokens.Keys;
      while pending != {}
        invariant pending <= tokens.Keys == old(tokens).Keys
        invariant forall h :: h in pending ==> tokens[h] == old(tokens)[h]
        invariant forall h :: h in old(tokens) && h !in pending ==>
                    tokens[h] == if old(tokens)[h].grant == grant && (complete || h in hit)
                                 then old(tokens)[h].(revoked := true) else old(tokens)[h]
        decreases pending
      {
        var h :| h in pending;
        if tokens[h].grant == grant && (complete || h in hit) {
          tokens := tokens[h := tokens[h].(revoked := true)];
        }
        pending := pending - {h};
      }
    }

    /** Logs the next line of a script. */
    ghost method Next(id: nat, script: Script, k: nat, before: seq<Event>)
      requires k < |script| && run == before + Events(id, script[..k])
      requires Initial(origin) && IsRun(env, origin, run) && After(env, origin, run) == hub
      requires Enabled(hub, Advance(id, script[k].0, script[k].1))
      modifies this`run, this`hub
      ensures Initial(origin) && IsRun(env, origin, run) && After(env, origin, run) == hub
      ensures run == before + Events(id, script[..k + 1]) && hub.clock == script[k].0
      ensures var f := StepEffect(env, old(hub), old(hub).reqs[id], script[k].0, script[k].1);
              hub.tables == Perform(old(hub).tables, f.write) && hub.claims == f.claims
              && hub.reqs == old(hub).reqs[id := f.phase]
    {
      Log(id, script[k].0, script[k].1);
      EventsNext(id, script, k);
      assert before + Events(id, script[..k]) + [Advance(id, script[k].0, script[k].1)]
          == before + Events(id, script[..k + 1]);
    }

    /** The access half of issuePair: its token row, or nothing. */
    method IssueAccess(id: nat, ghost origin': Origin, grant: string, b: Binding, script: Script, k: nat,
        ghost before: seq<Event>)
      returns (ok: bool)
      requires Valid() && k < |script| && run == before + Events(id, script[..k])
      requires hub.clock <= script[k].0 && script[k].1.drawn !in tokens
      requires id in hub.reqs && hub.reqs[id] == Issue(origin', grant, b)
      modifies this`tokens, this`run, this`hub
      ensures Valid() && run == before + Events(id, script[..k + 1]) && hub.clock == script[k].0
      ensures hub.claims == old(hub).claims && ok == script[k].1.ok
      ensures tokens.Keys == old(tokens).Keys + if ok then {script[k].1.drawn} else {}
      ensures hub.reqs == old(hub).reqs[id :=
                if !ok then Served(origin', false)
                else if env.hasOffline(b.scope) then IssueRefresh(origin', grant, b, script[k].0)
                    else Served(origin', true)]
    {
      var (now, c) := script[k];
      Next(id, script, k, before);
      if !c.ok { return false; }
      tokens := tokens[c.drawn := Token(AccessKind, grant, b, now + ACCESS_TOKEN_TTL, false)];
      ok := true;
    }

    /** The refresh half, with the pair's time of issue. */
    method IssueRefreshToken(id: nat, ghost origin': Origin, grant: string, b: Binding, at: int, script: Script, k: nat,
        ghost before: seq<Event>)
      returns (ok: bool)
      requires Valid() && k < |script| && run == before + Events(id, script[..k])
      requires hub.clock <= script[k].0 && script[k].1.drawn !in tokens
      requires id in hub.reqs && hub.reqs[id] == IssueRefresh(origin', grant, b, at)
      modifies this`tokens, this`run, this`hub
      ensures Valid() && run == before + Events(id, script[..k + 1])
      ensures hub.reqs == old(hub).reqs[id := Served(origin', ok)] && hub.claims == old(hub).claims
    {
      var c := script[k].1;
      Next(id, script, k, before);
      if !c.ok { return false; }
      tokens := tokens[c.drawn := Token(RefreshKind, grant, b, at + REFRESH_TOKEN_TTL, false)];
      ok := true;
    }

    /** issuePair: an access token, and a refresh token when the scope asks. */
    method IssuePair(id: nat, ghost origin': Origin, grant: string, b: Binding, script: Script, k: nat,
        ghost before: seq<Event>)
      returns (done: nat, ok: bool)
      requires Valid() && k + 2 <= |script| && run == before + Events(id, script[..k])
      requires hub.clock <= script[k].0 <= script[k + 1].0
      requires Draws(script, tokens)
      requires id in hub.reqs && hub.reqs[id] == Issue(origin', grant, b)
      modifies this`tokens, this`run, this`hub
      ensures Valid() && done <= k + 2 && run == before + Events(id, script[..done])
      ensures hub.reqs == old(hub).reqs[id := Served(origin', ok)] && hub.claims == old(hub).claims
    {
      ok := IssueAccess(id, origin', grant, b, script, k, before);
      if !ok { return k + 1, false; }
      if !env.hasOffline(b.scope) { return k + 1, true; }
      ok := IssueRefreshToken(id, origin', grant, b, script[k].0, script, k + 1, before);
      done := k + 2;
    }

    /** The replay branch of exchangeCode revokes the family first. */
    method RefuseTokens(id: nat, hash: string, code: AuthCode, script: Script, k: nat, ghost before: seq<Event>)
      requires Valid() && k < |script| && run == before + Events(id, script[..k]) && hub.clock <= script[k].0
      requires id in hub.reqs && hub.reqs[id] == XReplayTokens(hash, code)
      modifies this`tokens, this`run, this`hub
      ensures Valid() && run == before + Events(id, script[..k + 1]) && hub.clock == script[k].0
      ensures hub.reqs == old(hub).reqs[id := XReplayGrant(hash, code)] && hub.claims == old(hub).claims
    {
      Next(id, script, k, before);
      RevokeTokensForGrant(code.grant, script[k].1.ok, script[k].1.hit);
    }

    /** The replay branch of exchangeCode: revoke the family, then the grant. */
    method RefuseReplay(id: nat, hash: string, code: AuthCode, script: Script, k: nat, ghost before: seq<Event>)
      requires Valid() && k + 2 <= |script| && run == before + Events(id, script[..k])
      requires hub.clock <= script[k].0 <= script[k + 1].0
      requires id in hub.reqs && hub.reqs[id] == XReplayTokens(hash, code)
      modifies this`grants, this`tokens, this`run, this`hub
      ensures Valid() && run == before + Events(id, script[..k + 2])
      ensures hub.reqs == old(hub).reqs[id := Finished(false)] && hub.claims == old(hub).claims
    {
      RefuseTokens(id, hash, code, script, k, before);
      Next(id, script, k + 1, before);
      if script[k + 1].1.ok { var _ := RevokeGrantRow(code.binding.user, code.grant); }
    }

    /** The checks of exchangeCode after the claim is won. */
    method CheckCode(id: nat, x: ExchangeForm, code: AuthCode, ghost at: int, script: Script, k: nat,
        ghost before: seq<Event>)
      returns (ok: bool)
      requires Valid() && k < |script| && run == before + Events(id, script[..k]) && hub.clock <= script[k].0
      requires id in hub.reqs && hub.reqs[id] == XClaimed(x, code, at)
      modifies this`run, this`hub
      ensures Valid() && run == before + Events(id, script[..k + 1]) && hub.clock == script[k].0
      ensures hub.claims == old(hub).claims
      ensures hub.reqs == old(hub).reqs[id := if ok then XVerified(x, code, at) else Finished(false)]
    {
      var now := script[k].0;
      Next(id, script, k, before);
      if code.expires != ZERO_TIME && code.expires < now { return false; }
      if x.client != code.binding.client { return false; }
      if x.redirect != code.redirect { return false; }
      if x.resource != "" && x.resource != code.binding.resource { return false; }
      if !VerifyPKCE(env, code.challenge, x.verifier) { return false; }
      ok := true;
    }

    /** Marking the code consumed; the flag may be lost. */
    method ConsumeCode(id: nat, x: ExchangeForm, code: AuthCode, ghost at: int, script: Script, k: nat,
        ghost before: seq<Event>)
      returns (ok: bool)
      requires Valid() && k < |script| && run == before + Events(id, script[..k]) && hub.clock <= script[k].0
      requires id in hub.reqs && hub.reqs[id] == XVerified(x, code, at)
      modifies this`codes, this`run, this`hub
      ensures Valid() && run == before + Events(id, script[..k + 1]) && hub.clock == script[k].0
      ensures hub.claims == old(hub).claims
      ensures hub.reqs == old(hub).reqs[id :=
                if ok then Issue(FromCode(x.code, at), code.grant, code.binding) else Finished(false)]
    {
      Next(id, script, k, before);
      var c := script[k].1;
      if !c.ok || x.code !in codes || codes[x.code].consumed { return false; }
      if c.persists { codes := codes[x.code := codes[x.code].(consumed := true)]; }
      ok := true;
    }

    /** Those checks, and then the consumption of the code. `ok` means the pair
        may be issued. */
    method SpendCode(id: nat, x: ExchangeForm, code: AuthCode, ghost at: int, script: Script, k: nat,
        ghost before: seq<Event>)
      returns (done: nat, ok: bool)
      requires Valid() && k + 2 <= |script| && run == before + Events(id, script[..k])
      requires hub.clock <= script[k].0 <= script[k + 1].0
      requires id in hub.reqs && hub.reqs[id] == XClaimed(x, code, at)
      modifies this`codes, this`run, this`hub
      ensures Valid() && k <= done <= k + 2 && run == before + Events(id, script[..done])
      ensures ok ==> done == k + 2 && hub.clock == script[k + 1].0
      ensures hub.claims == old(hub).claims
      ensures hub.reqs == old(hub).reqs[id :=
                if ok then Issue(FromCode(x.code, at), code.grant, code.binding) else Finished(false)]
    {
      ok := CheckCode(id, x, code, at, script, k, before);
      if !ok { return k + 1, false; }
      ok := ConsumeCode(id, x, code, at, script, k + 1, before);
      done := k + 2;
    }

    /** The code lookup of exchangeCode. */
    method ReadCode(id: nat, x: ExchangeForm, script: Script, ghost before: seq<Event>) returns (row: Option<AuthCode>)
      requires Valid() && 1 <= |script| && run == before && hub.clock <= script[0].0
      requires id in hub.reqs && hub.reqs[id] == XStart(x)
      modifies this`run, this`hub
      ensures Valid() && run == before + Events(id, script[..1]) && hub.clock == script[0].0
      ensures hub.claims == old(hub).claims && hub.tables == old(hub).tables
      ensures row == if script[0].1.ok then GetAuthCode(hub.tables, x.code) else None
      ensures hub.reqs == old(hub).reqs[id := if row.Some? then XRead(x, row.value) else Finished(false)]
    {
      assert before + Events(id, script[..0]) == run;
      Next(id, script, 0, before);
      if !script[0].1.ok || x.code !in codes { return None; }
      return Some(codes[x.code]);
    }

    /** The replay test of exchangeCode: a consumed row is a replay without
        looking at the claims; otherwise the claim decides. */
    method TakeClaim(id: nat, x: ExchangeForm, code: AuthCode, script: Script, ghost before: seq<Event>)
        returns (won: bool)
      requires Valid() && 2 <= |script| && run == before + Events(id, script[..1]) && hub.clock <= script[1].0
      requires id in hub.reqs && hub.reqs[id] == XRead(x, code)
      modifies this`run, this`hub, claims
      ensures Valid() && run == before + Events(id, script[..2]) && hub.clock == script[1].0
      ensures hub.tables == old(hub).tables
      ensures hub.reqs == old(hub).reqs[id := if won then XClaimed(x, code, script[1].0)
              else XReplayTokens(x.code, code)]
    {
      Next(id, script, 1, before);
      if code.consumed { return false; }
      won := claims.Claim(x.code, script[1].0);
    }

    /** exchangeCode from a won claim on. */
    method Redeem(id: nat, x: ExchangeForm, code: AuthCode, ghost at: int, script: Script, ghost before: seq<Event>)
      returns (done: nat, issued: bool, ghost end: Phase)
      requires Valid() && |script| == 6 && run == before + Events(id, script[..2])
      requires hub.clock <= script[2].0 <= script[3].0 <= script[4].0 <= script[5].0 && Draws(script, tokens)
      requires id in hub.reqs && hub.reqs[id] == XClaimed(x, code, at)
      modifies this`codes, this`tokens, this`run, this`hub
      ensures Valid() && done <= 6 && run == before + Events(id, script[..done])
      ensures hub.reqs == old(hub).reqs[id := end]
      ensures issued ==> end == Served(FromCode(x.code, at), true)
      ensures !issued ==> end == Finished(false) || end == Served(FromCode(x.code, at), false)
    {
      var ok;
      done, ok := SpendCode(id, x, code, at, script, 2, before);
      if !ok { return done, false, Finished(false); }
      done, issued := IssuePair(id, FromCode(x.code, at), code.grant, code.binding, script, 4, before);
      end := Served(FromCode(x.code, at), issued);
    }

    /** exchangeCode once the row is read: a replay or a redemption. */
    method Present(id: nat, x: ExchangeForm, code: AuthCode, script: Script, ghost before: seq<Event>)
      returns (done: nat, issued: bool, ghost end: Phase)
      requires Valid() && |script| == 6 && run == before + Events(id, script[..1])
      requires hub.clock <= script[1].0 <= script[2].0 <= script[3].0 <= script[4].0 <= script[5].0
               && Draws(script, tokens)
      requires id in hub.reqs && hub.reqs[id] == XRead(x, code)
      modifies this`codes, this`grants, this`tokens, this`run, this`hub, claims
      ensures Valid() && done <= 6 && run == before + Events(id, script[..done])
      ensures hub.reqs == old(hub).reqs[id := end] && IsFinal(end)
      ensures issued ==> end.Served? && end.ok && ReachedIssue(end, x.code)
      ensures !issued ==> end == Finished(false) || (end.Served? && !end.ok)
    {
      var won := TakeClaim(id, x, code, script, before);
      if !won {
        RefuseReplay(id, x.code, code, script, 2, before);
        return 4, false, Finished(false);
      }
      done, issued, end := Redeem(id, x, code, script[1].0, script, before);
    }

    /** exchangeCode, start to finish: a run of request `id` alone. */
    method ExchangeCode(id: nat, x: ExchangeForm, script: Script) returns (done: nat, issued: bool, ghost end: Phase)
      requires Valid() && |script| == 6 && Ordered(script, hub.clock) && Draws(script, tokens)
      requires id in hub.reqs && hub.reqs[id] == XStart(x)
      modifies this`codes, this`grants, this`tokens, this`run, this`hub, claims
      ensures Valid() && done <= 6 && run == old(run) + Events(id, script[..done])
      ensures hub.reqs == old(hub).reqs[id := end] && IsFinal(end)
      ensures issued ==> end.Served? && end.ok && ReachedIssue(end, x.code)
      ensures !issued ==> end == Finished(false) || (end.Served? && !end.ok)
    {
      ghost var before := run;
      var row := ReadCode(id, x, script, before);
      if row.None? { return 1, false, Finished(false); }
      done, issued, end := Present(id, x, row.value, script, before);
    }

    /** The lookup and the checks of rotateRefresh. */
    method CheckRefresh(id: nat, hash: string, client: string, script: Script, ghost before: seq<Event>)
      returns (done: nat, row: Option<Token>)
      requires Valid() && 2 <= |script| && run == before && hub.clock <= script[0].0 <= script[1].0
      requires id in hub.reqs && hub.reqs[id] == RStart(hash, client)
      modifies this`run, this`hub
      ensures Valid() && done <= 2 && run == before + Events(id, script[..done])
      ensures hub.claims == old(hub).claims && hub.tables == old(hub).tables
      ensures row.Some? ==> done == 2 && hub.clock == script[1].0
      ensures hub.reqs == old(hub).reqs[id := if row.Some? then RVerified(hash, row.value) else Finished(false)]
    {
      assert before + Events(id, script[..0]) == run;
      Next(id, script, 0, before);
      if !script[0].1.ok || hash !in tokens || tokens[hash].revoked { return 1, None; }
      var tok := tokens[hash];
      Next(id, script, 1, before);
      if tok.kind != RefreshKind { return 2, None; }
      if tok.expires != ZERO_TIME && tok.expires < script[1].0 { return 2, None; }
      if client != tok.binding.client { return 2, None; }
      return 2, Some(tok);
    }

    /** Rotation proper: the old family goes before the new pair is issued. */
    method RetireFamily(id: nat, hash: string, tok: Token, script: Script, ghost before: seq<Event>) returns (ok: bool)
      requires Valid() && 3 <= |script| && run == before + Events(id, script[..2]) && hub.clock <= script[2].0
      requires id in hub.reqs && hub.reqs[id] == RVerified(hash, tok)
      modifies this`tokens, this`run, this`hub
      ensures Valid() && run == before + Events(id, script[..3]) && hub.clock == script[2].0
      ensures hub.claims == old(hub).claims && tokens.Keys == old(tokens).Keys
      ensures hub.reqs == old(hub).reqs[id := if ok then Issue(FromRefresh(hash), tok.grant, tok.binding)
              else Finished(false)]
    {
      Next(id, script, 2, before);
      ok := script[2].1.ok;
      RevokeTokensForGrant(tok.grant, ok, script[2].1.hit);
      assert tokens.Keys == Perform(Tables(grants, codes, old(tokens), users),
             RevokeTokens(tok.grant, ok, script[2].1.hit)).tokens.Keys;
    }

    /** rotateRefresh, start to finish. */
    method RotateRefresh(id: nat, hash: string, client: string, script: Script)
        returns (done: nat, issued: bool, ghost end: Phase)
      requires Valid() && |script| == 5 && Ordered(script, hub.clock) && Draws(script, tokens)
      requires id in hub.reqs && hub.reqs[id] == RStart(hash, client)
      modifies this`tokens, this`run, this`hub
      ensures Valid() && done <= 5 && run == old(run) + Events(id, script[..done])
      ensures hub.reqs == old(hub).reqs[id := end] && hub.claims == old(hub).claims
      ensures issued ==> end == Served(FromRefresh(hash), true)
      ensures !issued ==> end == Finished(false) || end == Served(FromRefresh(hash), false)
    {
      ghost var before := run;
      var row;
      done, row := CheckRefresh(id, hash, client, script, before);
      if row.None? { return done, false, Finished(false); }
      var ok := RetireFamily(id, hash, row.value, script, before);
      if !ok { return 3, false, Finished(false); }
      done, issued := IssuePair(id, FromRefresh(hash), row.value.grant, row.value.binding, script, 3, before);
      end := Served(FromRefresh(hash), issued);
    }

    /** One grant of one user, in place; somebody else's is not found. */
    method RevokeGrantRow(user: string, grant: string) returns (found: bool)
      modifies this`grants
      ensures Tables(grants, codes, tokens, users)
              == Perform(Tables(old(grants), codes, tokens, users), RevokeOneGrant(user, grant))
      ensures found <==> grant in old(grants) && !old(grants)[grant].revoked && old(grants)[grant].binding.user == user
    {
      if grant !in grants || grants[grant].revoked || grants[grant].binding.user != user { return false; }
      grants := grants[grant := grants[grant].(revoked := true)];
      found := true;
    }

    /** handleRevoke looks the token up; a revoked one is not found. */
    method FindFamily(id: nat, hash: string, script: Script, ghost before: seq<Event>) returns (grant: Option<string>)
      requires Valid() && 1 <= |script| && run == before && hub.clock <= script[0].0
      requires id in hub.reqs && hub.reqs[id] == VStart(hash)
      modifies this`run, this`hub
      ensures Valid() && run == before + Events(id, script[..1]) && hub.clock == script[0].0
              && hub.claims == old(hub).claims
      ensures hub.reqs == old(hub).reqs[id := if grant.Some? then VRead(grant.value) else Finished(true)]
    {
      assert before + Events(id, script[..0]) == run;
      Next(id, script, 0, before);
      if !script[0].1.ok || hash !in tokens || tokens[hash].revoked { return None; }
      grant := Some(tokens[hash].grant);
    }

    /** handleRevoke: always a success, whatever was passed. */
    method HandleRevoke(id: nat, hash: string, script: Script) returns (done: nat)
      requires Valid() && |script| == 2 && Ordered(script, hub.clock)
      requires id in hub.reqs && hub.reqs[id] == VStart(hash)
      modifies this`tokens, this`run, this`hub
      ensures Valid() && done <= 2 && run == old(run) + Events(id, script[..done])
      ensures hub.reqs == old(hub).reqs[id := Finished(true)] && hub.claims == old(hub).claims
    {
      ghost var before := run;
      var grant := FindFamily(id, hash, script, before);
      if grant.None? { return 1; }
      Next(id, script, 1, before);
      RevokeTokensForGrant(grant.value, script[1].1.ok, script[1].1.hit);
      done := 2;
    }

    /** handleRevokeGrant starts with the tokens. */
    method DropTokens(id: nat, user: string, grant: string, script: Script, ghost before: seq<Event>) returns (ok: bool)
      requires Valid() && 1 <= |script| && run == before && hub.clock <= script[0].0
      requires id in hub.reqs && hub.reqs[id] == GStart(user, grant)
      modifies this`tokens, this`run, this`hub
      ensures Valid() && run == before + Events(id, script[..1]) && hub.clock == script[0].0
              && hub.claims == old(hub).claims
      ensures hub.reqs == old(hub).reqs[id := if ok then GTokensGone(user, grant) else Finished(false)]
      ensures ok ==> forall h :: h in tokens && tokens[h].grant == grant ==> tokens[h].revoked
    {
      assert before + Events(id, script[..0]) == run;
      Next(id, script, 0, before);
      RevokeTokensForGrant(grant, script[0].1.ok, script[0].1.hit);
      ok := script[0].1.ok;
    }

    /** handleRevokeGrant: the tokens first, then the grant. */
    method HandleRevokeGrant(id: nat, user: string, grant: string, script: Script) returns (done: nat, ok: bool)
      requires Valid() && |script| == 2 && Ordered(script, hub.clock)
      requires id in hub.reqs && hub.reqs[id] == GStart(user, grant)
      modifies this`tokens, this`grants, this`run, this`hub
      ensures Valid() && done <= 2 && run == old(run) + Events(id, script[..done])
      ensures hub.reqs == old(hub).reqs[id := Finished(ok)] && hub.claims == old(hub).claims
      ensures ok ==> grant in grants && grants[grant].revoked
                     && forall h :: h in tokens && tokens[h].grant == grant ==> tokens[h].revoked
    {
      ghost var before := run;
      ok := DropTokens(id, user, grant, script, before);
      if !ok { return 1, false; }
      Next(id, script, 1, before);
      done := 2;
      if !script[1].1.ok { return 2, false; }
      ok := RevokeGrantRow(user, grant);
    }

    /** The grant row of a consent. */
    method StoreGrant(id: nat, b: Binding, redirect: string, challenge: string, script: Script,
        ghost before: seq<Event>) returns (ok: bool)
      requires Valid() && 1 <= |script| && run == before && hub.clock <= script[0].0 && script[0].1.drawn !in grants
      requires id in hub.reqs && hub.reqs[id] == CStart(b, redirect, challenge)
      modifies this`grants, this`run, this`hub
      ensures Valid() && run == before + Events(id, script[..1]) && hub.clock == script[0].0
              && hub.claims == old(hub).claims
      ensures hub.reqs == old(hub).reqs[id :=
                if ok then CGranted(script[0].1.drawn, b, redirect, challenge, script[0].0) else Finished(false)]
    {
      assert before + Events(id, script[..0]) == run;
      Next(id, script, 0, before);
      if !script[0].1.ok { return false; }
      grants := grants[script[0].1.drawn := Grant(b, false)];
      ok := true;
    }

    /** The code of a consent, bound to everything the grant is. */
    method StoreCode(id: nat, grant: string, b: Binding, redirect: string, challenge: string, at: int, script: Script,
                     ghost before: seq<Event>) returns (ok: bool)
      requires Valid() && 2 <= |script| && run == before + Events(id, script[..1])
      requires hub.clock <= script[1].0 && script[1].1.drawn !in codes
      requires id in hub.reqs && hub.reqs[id] == CGranted(grant, b, redirect, challenge, at)
      modifies this`codes, this`run, this`hub
      ensures Valid() && run == before + Events(id, script[..2]) && hub.claims == old(hub).claims
      ensures hub.reqs == old(hub).reqs[id := Finished(ok)]
    {
      Next(id, script, 1, before);
      if !script[1].1.ok { return false; }
      codes := codes[script[1].1.drawn := AuthCode(grant, b, redirect, challenge, at + AUTH_CODE_TTL, false)];
      ok := true;
    }

    /** handleConsentDecide, once the person approved: the grant row, then a
        code bound to everything the grant is. */
    method DecideConsent(id: nat, b: Binding, redirect: string, challenge: string, script: Script)
        returns (done: nat, ok: bool)
      requires Valid() && |script| == 2 && Ordered(script, hub.clock)
      requires script[0].1.drawn !in grants && script[1].1.drawn !in codes
      requires id in hub.reqs && hub.reqs[id] == CStart(b, redirect, challenge)
      modifies this`grants, this`codes, this`run, this`hub
      ensures Valid() && done <= 2 && run == old(run) + Events(id, script[..done])
      ensures hub.reqs == old(hub).reqs[id := Finished(ok)] && hub.claims == old(hub).claims
    {
      ghost var before := run;
      ok := StoreGrant(id, b, redirect, challenge, script, before);
      if !ok { return 1, false; }
      ok := StoreCode(id, script[0].1.drawn, b, redirect, challenge, script[0].0, script, before);
      done := 2;
    }

    /** The token rung of an access check. */
    method ReadAccess(id: nat, hash: string, script: Script, ghost before: seq<Event>) returns (row: Option<Token>)
      requires Valid() && 1 <= |script| && run == before && hub.clock <= script[0].0
      requires id in hub.reqs && hub.reqs[id] == AStart(hash)
      modifies this`run, this`hub
      ensures Valid() && run == before + Events(id, script[..1]) && hub.clock == script[0].0
      ensures hub.tables == old(hub).tables && hub.claims == old(hub).claims
      ensures row.Some? ==> hash in tokens && row.value == tokens[hash]
      ensures hub.reqs == old(hub).reqs[id := if row.Some? then ATokenRead(hash, row.value) else Finished(false)]
    {
      assert before + Events(id, script[..0]) == run;
      Next(id, script, 0, before);
      if !script[0].1.ok || hash !in tokens || tokens[hash].revoked { return None; }
      var tok := tokens[hash];
      if tok.kind != AccessKind { return None; }
      if tok.expires != ZERO_TIME && tok.expires < script[0].0 { return None; }
      row := Some(tok);
    }

    /** The grant rung. */
    method ReadGrant(id: nat, hash: string, tok: Token, script: Script, ghost before: seq<Event>) returns (ok: bool)
      requires Valid() && 2 <= |script| && run == before + Events(id, script[..1]) && hub.clock <= script[1].0
      requires id in hub.reqs && hub.reqs[id] == ATokenRead(hash, tok)
      modifies this`run, this`hub
      ensures Valid() && run == before + Events(id, script[..2]) && hub.clock == script[1].0
      ensures hub.tables == old(hub).tables && hub.claims == old(hub).claims
      ensures hub.reqs == old(hub).reqs[id := if ok then AGrantRead(hash, tok) else Finished(false)]
    {
      Next(id, script, 1, before);
      ok := script[1].1.ok && tok.grant in grants && !grants[tok.grant].revoked;
    }

    /** The owner rung. */
    method ReadOwner(id: nat, hash: string, tok: Token, script: Script, ghost before: seq<Event>) returns (ok: bool)
      requires Valid() && 3 <= |script| && run == before + Events(id, script[..2]) && hub.clock <= script[2].0
      requires id in hub.reqs && hub.reqs[id] == AGrantRead(hash, tok)
      modifies this`run, this`hub
      ensures Valid() && run == before + Events(id, script[..3])
      ensures hub.tables == old(hub).tables && hub.claims == old(hub).claims
      ensures hub.reqs == old(hub).reqs[id := if ok then Accepted(hash, tok) else Finished(false)]
    {
      Next(id, script, 2, before);
      ok := script[2].1.ok && tok.binding.user in users && !users[tok.binding.user];
    }

    /** IdentityFromOAuthToken: token, grant and owner are read anew each time. */
    method IdentityFromToken(id: nat, hash: string, script: Script) returns (done: nat, owner: Option<Binding>)
      requires Valid() && |script| == 3 && Ordered(script, hub.clock)
      requires id in hub.reqs && hub.reqs[id] == AStart(hash)
      modifies this`run, this`hub
      ensures Valid() && done <= 3 && run == old(run) + Events(id, script[..done])
      ensures hub.tables == old(hub).tables && hub.claims == old(hub).claims
      ensures owner.Some? ==> hash in tokens && owner.value == tokens[hash].binding
                              && hub.reqs == old(hub).reqs[id := Accepted(hash, tokens[hash])]
      ensures owner.None? ==> hub.reqs == old(hub).reqs[id := Finished(false)]
    {
      ghost var before := run;
      var row := ReadAccess(id, hash, script, before);
      if row.None? { return 1, None; }
      var ok := ReadGrant(id, hash, row.value, script, before);
      if !ok { return 2, None; }
      ok := ReadOwner(id, hash, row.value, script, before);
      return 3, if ok then Some(row.value.binding) else None;
    }
  }
}

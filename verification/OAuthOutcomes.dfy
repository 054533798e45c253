/** What good requests get, and what revocations leave, whatever else runs in
    between: the other half of what OAuthIssuance and OAuthHistory say. */
module OAuthOutcomes {
  import opened OAuthStore
  import opened OAuthProtocol
  import opened OAuthHistory
  import opened OAuthIssuance

  /** Steps `m` and `n` of request `k` follow each other, as far as `k` goes. */
  predicate Consecutive(es: seq<Event>, k: nat, m: nat, n: nat) {
    m < n && Steps(es, m, k) && Steps(es, n, k) && forall i :: m < i < n ==> !Steps(es, i, k)
  }

  lemma {:induction false} Waiting(env: Env, s: Hub, es: seq<Event>, k: nat, m: nat, n: nat)
    requires IsRun(env, s, es) && m <= n <= |es| && k in StateAt(env, s, es, m).reqs
    requires forall i :: m <= i < n ==> !Steps(es, i, k)
    ensures PhaseAt(env, s, es, k, n) == PhaseAt(env, s, es, k, m)
  {
    if m < n {
      Waiting(env, s, es, k, m, n - 1);
      StateAtNext(env, s, es, n - 1);
      assert !Steps(es, n - 1, k);
      OthersKeep(env, StateAt(env, s, es, n - 1), es[n - 1], k);
    }
  }

  /** The phase at the next step is the one this step left. */
  lemma Onward(env: Env, s: Hub, es: seq<Event>, k: nat, m: nat, n: nat)
    requires IsRun(env, s, es) && Consecutive(es, k, m, n)
    ensures PhaseAt(env, s, es, k, n) == PhaseAt(env, s, es, k, m + 1)
  {
    var _, _, _ := StepsTo(env, s, es, k, m);
    Waiting(env, s, es, k, m + 1, n);
  }

  // --------------------------------------------------- one step at a time

  /** A stored code is read. */
  lemma CodeStepReads(env: Env, s0: Hub, es: seq<Event>, k: nat, x: ExchangeForm, code: AuthCode, n: nat)
    requires IsRun(env, s0, es) && CodeReadAt(env, s0, es, k, x, code, n) && es[n].choice.ok
    ensures PhaseAt(env, s0, es, k, n + 1) == Some(XRead(x, code))
  {
    var _, _, _ := StepsTo(env, s0, es, k, n);
  }

  /** No claim on the code younger than two minutes. */
  predicate Unclaimed(env: Env, s0: Hub, es: seq<Event>, h: string, n: nat)
    requires IsRun(env, s0, es) && n < |es|
  {
    var claims := StateAt(env, s0, es, n).claims;
    h in claims ==> es[n].now - claims[h] > 2 * 60 * SECOND
  }

  lemma CodeStepClaims(env: Env, s0: Hub, es: seq<Event>, k: nat, x: ExchangeForm, code: AuthCode, n: nat)
    requires IsRun(env, s0, es) && Steps(es, n, k) && PhaseAt(env, s0, es, k, n) == Some(XRead(x, code))
    ensures PhaseAt(env, s0, es, k, n + 1) ==
            Some(if !code.consumed && Unclaimed(env, s0, es, x.code, n) then XClaimed(x, code, es[n].now)
                 else XReplayTokens(x.code, code))
  {
    var _, _, _ := StepsTo(env, s0, es, k, n);
  }

  /** The holder of the claim goes on exactly with the proof. */
  lemma CodeStepProves(env: Env, s0: Hub, es: seq<Event>, k: nat, x: ExchangeForm, code: AuthCode, at: int, n: nat)
    requires IsRun(env, s0, es) && Steps(es, n, k) && PhaseAt(env, s0, es, k, n) == Some(XClaimed(x, code, at))
    ensures PhaseAt(env, s0, es, k, n + 1) ==
            Some(if CodeProvedAt(env, es, k, x, code, n) then XVerified(x, code, at) else Finished(false))
  {
    var _, _, _ := StepsTo(env, s0, es, k, n);
  }

  lemma CodeStepSpends(env: Env, s0: Hub, es: seq<Event>, k: nat, x: ExchangeForm, code: AuthCode, at: int, n: nat)
    requires IsRun(env, s0, es) && n < |es| && PhaseAt(env, s0, es, k, n) == Some(XVerified(x, code, at))
    requires CodeSpentAt(env, s0, es, k, x, n) && es[n].choice.ok
    ensures PhaseAt(env, s0, es, k, n + 1) == Some(Issue(FromCode(x.code, at), code.grant, code.binding))
  {
    var _, _, _ := StepsTo(env, s0, es, k, n);
  }

  lemma IssueStepStores(env: Env, s0: Hub, es: seq<Event>, k: nat, o: Origin, grant: string, b: Binding, n: nat)
    requires IsRun(env, s0, es) && Steps(es, n, k) && PhaseAt(env, s0, es, k, n) == Some(Issue(o, grant, b))
    requires es[n].choice.ok
    ensures AccessAt(env, s0, es, k, grant, b, es[n].now, n)
    ensures PhaseAt(env, s0, es, k, n + 1) ==
            Some(if env.hasOffline(b.scope) then IssueRefresh(o, grant, b, es[n].now) else Served(o, true))
  {
    var s, p, c := StepsTo(env, s0, es, k, n);
    RowStored(env, s0, es, k, n, Token(AccessKind, grant, b, es[n].now + ACCESS_TOKEN_TTL, false));
  }

  lemma RefreshStepStores(env: Env, s0: Hub, es: seq<Event>, k: nat, o: Origin, grant: string, b: Binding, at: int,
      n: nat)
    requires IsRun(env, s0, es) && Steps(es, n, k) && PhaseAt(env, s0, es, k, n) == Some(IssueRefresh(o, grant, b, at))
    requires es[n].choice.ok
    ensures RefreshAt(env, s0, es, k, grant, b, at, n) && PhaseAt(env, s0, es, k, n + 1) == Some(Served(o, true))
  {
    var s, p, c := StepsTo(env, s0, es, k, n);
    RowStored(env, s0, es, k, n, Token(RefreshKind, grant, b, at + REFRESH_TOKEN_TTL, false));
  }

  // ------------------------------------------------------ good requests are served

  /** An exchange whose store calls succeed, that reads an unconsumed code, finds
      no young claim on it, proves it, and meets it still unconsumed, stores its
      access token; for an offline scope it goes on to the refresh token, and
      otherwise it is served. */
  lemma GoodExchangeIsServed(env: Env, s0: Hub, es: seq<Event>, k: nat, x: ExchangeForm, code: AuthCode,
                             n1: nat, n2: nat, n3: nat, n4: nat, n5: nat)
    requires IsRun(env, s0, es) && Consecutive(es, k, n1, n2) && Consecutive(es, k, n2, n3)
    requires Consecutive(es, k, n3, n4) && Consecutive(es, k, n4, n5)
    requires es[n1].choice.ok && es[n4].choice.ok && es[n5].choice.ok
    requires CodeReadAt(env, s0, es, k, x, code, n1) && !code.consumed && Unclaimed(env, s0, es, x.code, n2)
    requires CodeProvedAt(env, es, k, x, code, n3)
    requires x.code in At(env, s0, es, n4).codes && !At(env, s0, es, n4).codes[x.code].consumed
    ensures es[n4].choice.persists ==>
              x.code in At(env, s0, es, n4 + 1).codes && At(env, s0, es, n4 + 1).codes[x.code].consumed
    ensures AccessAt(env, s0, es, k, code.grant, code.binding, es[n5].now, n5)
    ensures PhaseAt(env, s0, es, k, n5 + 1) ==
            Some(if env.hasOffline(code.binding.scope)
                 then IssueRefresh(FromCode(x.code, es[n2].now), code.grant, code.binding, es[n5].now)
                 else Served(FromCode(x.code, es[n2].now), true))
  {
    CodeStepReads(env, s0, es, k, x, code, n1);
    Onward(env, s0, es, k, n1, n2);
    CodeStepClaims(env, s0, es, k, x, code, n2);
    Onward(env, s0, es, k, n2, n3);
    CodeStepProves(env, s0, es, k, x, code, es[n2].now, n3);
    Onward(env, s0, es, k, n3, n4);
    CodeConsumed(env, s0, es, k, x, code, es[n2].now, n4);
    CodeStepSpends(env, s0, es, k, x, code, es[n2].now, n4);
    Onward(env, s0, es, k, n4, n5);
    IssueStepStores(env, s0, es, k, FromCode(x.code, es[n2].now), code.grant, code.binding, n5);
  }

  lemma CodeConsumed(env: Env, s0: Hub, es: seq<Event>, k: nat, x: ExchangeForm, code: AuthCode, at: int, n: nat)
    requires IsRun(env, s0, es) && Steps(es, n, k) && PhaseAt(env, s0, es, k, n) == Some(XVerified(x, code, at))
    requires es[n].choice.ok && x.code in At(env, s0, es, n).codes && !At(env, s0, es, n).codes[x.code].consumed
    ensures CodeSpentAt(env, s0, es, k, x, n)
  {
    var _, _, _ := StepsTo(env, s0, es, k, n);
  }

  lemma TokenStepReads(env: Env, s0: Hub, es: seq<Event>, k: nat, hash: string, client: string, tok: Token, n: nat)
    requires IsRun(env, s0, es) && TokenReadAt(env, s0, es, k, hash, client, tok, n) && es[n].choice.ok
    ensures PhaseAt(env, s0, es, k, n + 1) == Some(RRead(hash, client, tok))
  {
    var _, _, _ := StepsTo(env, s0, es, k, n);
  }

  lemma TokenStepProves(env: Env, s0: Hub, es: seq<Event>, k: nat, hash: string, client: string, tok: Token, n: nat)
    requires IsRun(env, s0, es) && Steps(es, n, k) && PhaseAt(env, s0, es, k, n) == Some(RRead(hash, client, tok))
    ensures PhaseAt(env, s0, es, k, n + 1) ==
            Some(if TokenProvedAt(es, k, client, tok, n) then RVerified(hash, tok) else Finished(false))
  {
    var _, _, _ := StepsTo(env, s0, es, k, n);
  }

  lemma TokenStepRotates(env: Env, s0: Hub, es: seq<Event>, k: nat, hash: string, tok: Token, n: nat)
    requires IsRun(env, s0, es) && Steps(es, n, k) && PhaseAt(env, s0, es, k, n) == Some(RVerified(hash, tok))
    requires es[n].choice.ok
    ensures FamilyGoneAt(env, s0, es, k, tok.grant, n)
    ensures PhaseAt(env, s0, es, k, n + 1) == Some(Issue(FromRefresh(hash), tok.grant, tok.binding))
  {
    var s, p, c := StepsTo(env, s0, es, k, n);
    RevokeChangesIff(s.tables, tok.grant, c.hit);
  }

  /** So is a refresh that reads its token live and proves it: the family goes,
      and the new access token is stored. */
  lemma GoodRefreshIsServed(env: Env, s0: Hub, es: seq<Event>, k: nat, hash: string, client: string, tok: Token,
                            n1: nat, n2: nat, n3: nat, n4: nat)
    requires IsRun(env, s0, es) && Consecutive(es, k, n1, n2) && Consecutive(es, k, n2, n3)
             && Consecutive(es, k, n3, n4)
    requires es[n1].choice.ok && es[n3].choice.ok && es[n4].choice.ok
    requires TokenReadAt(env, s0, es, k, hash, client, tok, n1) && TokenProvedAt(es, k, client, tok, n2)
    ensures FamilyGoneAt(env, s0, es, k, tok.grant, n3)
    ensures AccessAt(env, s0, es, k, tok.grant, tok.binding, es[n4].now, n4)
    ensures PhaseAt(env, s0, es, k, n4 + 1) ==
            Some(if env.hasOffline(tok.binding.scope)
                 then IssueRefresh(FromRefresh(hash), tok.grant, tok.binding, es[n4].now)
                 else Served(FromRefresh(hash), true))
  {
    TokenStepReads(env, s0, es, k, hash, client, tok, n1);
    Onward(env, s0, es, k, n1, n2);
    TokenStepProves(env, s0, es, k, hash, client, tok, n2);
    Onward(env, s0, es, k, n2, n3);
    TokenStepRotates(env, s0, es, k, hash, tok, n3);
    Onward(env, s0, es, k, n3, n4);
    IssueStepStores(env, s0, es, k, FromRefresh(hash), tok.grant, tok.binding, n4);
  }

  /** And an access check that finds its token, the grant and the user good. */
  lemma GoodTokenIsAccepted(env: Env, s0: Hub, es: seq<Event>, k: nat, hash: string, tok: Token, n1: nat, n2: nat,
      n3: nat)
    requires IsRun(env, s0, es) && Consecutive(es, k, n1, n2) && Consecutive(es, k, n2, n3)
    requires es[n1].choice.ok && es[n2].choice.ok && es[n3].choice.ok
    requires PhaseAt(env, s0, es, k, n1) == Some(AStart(hash)) && TokenHeld(env, s0, es, k, hash, tok, n1)
    requires GrantHeld(env, s0, es, k, tok.grant, n2) && UserHeld(env, s0, es, k, tok.binding.user, n3)
    ensures PhaseAt(env, s0, es, k, n3 + 1) == Some(Accepted(hash, tok))
  {
    var _, _, _ := StepsTo(env, s0, es, k, n1);
    Onward(env, s0, es, k, n1, n2);
    var _, _, _ := StepsTo(env, s0, es, k, n2);
    Onward(env, s0, es, k, n2, n3);
    var _, _, _ := StepsTo(env, s0, es, k, n3);
  }

  // ------------------------------------------------------------- revocations

  /** A revocation whose first step met a live token and whose two steps both
      reach the store leaves no token of its grant alive, and its second step
      changes the tables exactly when one still was. */
  lemma RevokedTokenTakesFamily(env: Env, s0: Hub, es: seq<Event>, k: nat, hash: string, n1: nat, n2: nat)
    requires IsRun(env, s0, es) && Consecutive(es, k, n1, n2) && es[n1].choice.ok && es[n2].choice.ok
    requires PhaseAt(env, s0, es, k, n1) == Some(VStart(hash))
    requires hash in At(env, s0, es, n1).tokens && !At(env, s0, es, n1).tokens[hash].revoked
    ensures var grant := At(env, s0, es, n1).tokens[hash].grant;
            && NoneLive(At(env, s0, es, n2 + 1), grant)
            && (At(env, s0, es, n2 + 1) != At(env, s0, es, n2) <==> exists h :: LiveOf(At(env, s0, es, n2), grant, h))
    ensures PhaseAt(env, s0, es, k, n2 + 1) == Some(Finished(true))
  {
    var grant := At(env, s0, es, n1).tokens[hash].grant;
    var _, _, _ := StepsTo(env, s0, es, k, n1);
    Onward(env, s0, es, k, n1, n2);
    var s, _, c := StepsTo(env, s0, es, k, n2);
    RevokeChangesIff(s.tables, grant, c.hit);
  }

  /** One that met no live token is over, and has changed nothing. */
  lemma UnknownTokenRevokesNothing(env: Env, s0: Hub, es: seq<Event>, k: nat, hash: string, n: nat)
    requires IsRun(env, s0, es) && Steps(es, n, k) && PhaseAt(env, s0, es, k, n) == Some(VStart(hash))
    requires hash in At(env, s0, es, n).tokens ==> At(env, s0, es, n).tokens[hash].revoked
    ensures At(env, s0, es, n + 1) == At(env, s0, es, n)
    ensures PhaseAt(env, s0, es, k, n + 1) == Some(Finished(true))
    ensures forall m :: n < m < |es| ==> !Belongs(es, m, k)
  {
    var _, _, _ := StepsTo(env, s0, es, k, n);
    forall m | n < m < |es| ensures !Belongs(es, m, k) { FinalStays(env, s0, es, k, n + 1, m); }
  }

  /** A person's own revocation ends the grant and all its tokens. */
  lemma OwnRevokeEndsGrant(env: Env, s0: Hub, es: seq<Event>, k: nat, user: string, grant: string, n1: nat, n2: nat)
    requires IsRun(env, s0, es) && Consecutive(es, k, n1, n2) && es[n1].choice.ok && es[n2].choice.ok
    requires PhaseAt(env, s0, es, k, n1) == Some(GStart(user, grant))
    requires var t := At(env, s0, es, n2);
             grant in t.grants && !t.grants[grant].revoked && t.grants[grant].binding.user == user
    ensures NoneLive(At(env, s0, es, n1 + 1), grant)
    ensures grant in At(env, s0, es, n2 + 1).grants && At(env, s0, es, n2 + 1).grants[grant].revoked
    ensures PhaseAt(env, s0, es, k, n2 + 1) == Some(Finished(true))
  {
    var s, _, c := StepsTo(env, s0, es, k, n1);
    RevokeChangesIff(s.tables, grant, c.hit);
    Onward(env, s0, es, k, n1, n2);
    var _, _, _ := StepsTo(env, s0, es, k, n2);
  }

  // ----------------------------------------------------------------- replays

  /** A presentation that reads a consumed code, or finds a young claim on it, is
      refused, and on its way out ends every token and then the grant. */
  lemma ReplayEndsFamily(env: Env, s0: Hub, es: seq<Event>, k: nat, x: ExchangeForm, code: AuthCode,
                         n1: nat, n2: nat, n3: nat, n4: nat)
    requires IsRun(env, s0, es) && Consecutive(es, k, n1, n2) && Consecutive(es, k, n2, n3)
             && Consecutive(es, k, n3, n4)
    requires es[n1].choice.ok && es[n3].choice.ok && es[n4].choice.ok
    requires CodeReadAt(env, s0, es, k, x, code, n1) && (code.consumed || !Unclaimed(env, s0, es, x.code, n2))
    ensures NoneLive(At(env, s0, es, n3 + 1), code.grant)
    ensures var t, next := At(env, s0, es, n4), At(env, s0, es, n4 + 1);
            code.grant in t.grants && t.grants[code.grant].binding.user == code.binding.user
            ==> code.grant in next.grants && next.grants[code.grant].revoked
    ensures PhaseAt(env, s0, es, k, n4 + 1) == Some(Finished(false))
  {
    CodeStepReads(env, s0, es, k, x, code, n1);
    Onward(env, s0, es, k, n1, n2);
    CodeStepClaims(env, s0, es, k, x, code, n2);
    Onward(env, s0, es, k, n2, n3);
    var s, _, c := StepsTo(env, s0, es, k, n3);
    RevokeChangesIff(s.tables, code.grant, c.hit);
    Onward(env, s0, es, k, n3, n4);
    var _, _, _ := StepsTo(env, s0, es, k, n4);
  }

  lemma ConsumedStep(env: Env, s: Hub, e: Event, h: string)
    requires Enabled(s, e) && h in s.tables.codes && s.tables.codes[h].consumed
    ensures e.Advance? && s.reqs[e.id].CGranted? ==> e.choice.drawn != h
    ensures h in Apply(env, s, e).tables.codes && Apply(env, s, e).tables.codes[h].consumed
  {
    if e.Advance? {
      var w := StepEffect(env, s, s.reqs[e.id], e.now, e.choice).write;
      WritesNoOldCode(env, s, e, h);
      WriteKeepsConsumed(s.tables, w, h);
    }
  }

  lemma WritesNoOldCode(env: Env, s: Hub, e: Event, h: string)
    requires Enabled(s, e) && e.Advance? && h in s.tables.codes
    ensures var w := StepEffect(env, s, s.reqs[e.id], e.now, e.choice).write;
            !(w.PutCode? && w.hash == h)
  {
  }

  lemma WriteKeepsConsumed(t: Tables, w: Write, h: string)
    requires h in t.codes && t.codes[h].consumed && !(w.PutCode? && w.hash == h)
    ensures h in Perform(t, w).codes && Perform(t, w).codes[h].consumed
  {
  }

  /** A code once stored as consumed is read as consumed ever after, so that every
      later presentation of it, however late, is such a replay. */
  lemma {:induction false} ConsumedForGood(env: Env, s0: Hub, es: seq<Event>, h: string, m: nat, n: nat)
    requires IsRun(env, s0, es) && m <= n <= |es|
    requires h in At(env, s0, es, m).codes && At(env, s0, es, m).codes[h].consumed
    ensures h in At(env, s0, es, n).codes && At(env, s0, es, n).codes[h].consumed
  {
    if m < n {
      ConsumedForGood(env, s0, es, h, m, n - 1);
      StateAtNext(env, s0, es, n - 1);
      ConsumedStep(env, StateAt(env, s0, es, n - 1), es[n - 1], h);
    }
  }
}

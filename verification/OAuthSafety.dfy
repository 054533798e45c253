/** Safety of the OAuth handlers over every interleaving: single redemption of
    a code, the finality of a revoked grant, and the binding every row keeps. */
module OAuthSafety {
  import opened OAuthStore
  import opened OAuthProtocol

  ghost predicate CanStep(s: Hub, id: nat, now: int, c: Choice) {
    Inv(s) && Enabled(s, Advance(id, now, c))
  }

  // ------------------------------------------------------------ store writes

  /** A write that respects the bindings: new rows are new and carry the binding
      of an existing grant, and a grant gets its only code. */
  ghost predicate WriteOk(t: Tables, w: Write) {
    match w
    case PutGrant(id, _) => id !in t.grants
    case PutCode(h, code) =>
      && h !in t.codes && Bound(t, code.grant, code.binding) && code.expires > AUTH_CODE_TTL
      && forall k :: k in t.codes ==> t.codes[k].grant != code.grant
    case PutToken(h, tok) => h !in t.tokens && Bound(t, tok.grant, tok.binding)
    case _ => true
  }

  lemma WriteExtends(t: Tables, w: Write)
    requires WriteOk(t, w)
    ensures Extends(t, Perform(t, w))
  {
    var t' := Perform(t, w);
    forall h | h in t.tokens ensures KnownToken(t', h, t.tokens[h]) {}
    forall h | h in t.codes ensures KnownCode(t', h, t.codes[h]) {}
  }

  lemma WriteKeepsRows(t: Tables, w: Write)
    requires WriteOk(t, w) && RowsBound(t)
    ensures RowsBound(Perform(t, w))
  {
    var t' := Perform(t, w);
    WriteExtends(t, w);
    forall h | h in t'.tokens ensures Bound(t', t'.tokens[h].grant, t'.tokens[h].binding) {
      assert h in t.tokens ==> Bound(t, t.tokens[h].grant, t.tokens[h].binding);
    }
    forall h | h in t'.codes
      ensures Bound(t', t'.codes[h].grant, t'.codes[h].binding) && t'.codes[h].expires > AUTH_CODE_TTL
    {
      assert h in t.codes ==> Bound(t, t.codes[h].grant, t.codes[h].binding);
    }
  }

  lemma ExtendsTransitive(a: Tables, b: Tables, c: Tables)
    requires Extends(a, b) && Extends(b, c)
    ensures Extends(a, c)
  {
    forall h | h in a.tokens ensures KnownToken(c, h, a.tokens[h]) {
      assert KnownToken(b, h, a.tokens[h]);
    }
    forall h | h in a.codes ensures KnownCode(c, h, a.codes[h]) {
      assert KnownCode(b, h, a.codes[h]);
    }
  }

  // ------------------------------------------------------------ single steps

  lemma StepWriteOk(env: Env, s: Hub, p: Phase, now: int, c: Choice)
    requires !IsFinal(p) && FreshFor(s.tables, p, c.drawn) && Remembers(s.tables, p)
    ensures WriteOk(s.tables, StepEffect(env, s, p, now, c).write)
    ensures var w := StepEffect(env, s, p, now, c).write;
            w.PutCode? ==> p.CGranted? && w.code.grant == p.grant && w.code.expires == p.at + AUTH_CODE_TTL
  {
  }

  lemma StepClaims(env: Env, s: Hub, p: Phase, now: int, c: Choice)
    requires !IsFinal(p) && s.clock <= now
    requires forall h :: h in s.claims ==> s.claims[h] <= s.clock
    ensures var f := StepEffect(env, s, p, now, c);
            && (forall h :: h in f.claims ==> f.claims[h] <= now)
            && (forall h :: h in s.claims ==>
                  (h in f.claims && f.claims[h] == s.claims[h]) || s.claims[h] + 2 * AUTH_CODE_TTL < now)
  {
  }

  /** Rows a request remembers survive any write, except that a pending consent
      must not see a code appear for its own grant. */
  lemma RemembersSurvives(t: Tables, w: Write, q: Phase)
    requires WriteOk(t, w) && Remembers(t, q)
    requires w.PutCode? && q.CGranted? ==> w.code.grant != q.grant
    ensures Remembers(Perform(t, w), q)
  {
    WriteExtends(t, w);
    var t' := Perform(t, w);
    if q.CGranted? {
      forall h | h in t'.codes ensures t'.codes[h].grant != q.grant {
        assert h in t.codes ==> t.codes[h].grant != q.grant;
      }
    }
  }

  lemma NewGrantHasNoCode(t: Tables, g: string)
    requires RowsBound(t) && g !in t.grants
    ensures forall h :: h in t.codes ==> t.codes[h].grant != g
  {
    forall h | h in t.codes ensures t.codes[h].grant != g {
      assert Bound(t, t.codes[h].grant, t.codes[h].binding);
    }
  }

  lemma PhaseRemembers(env: Env, s: Hub, p: Phase, now: int, c: Choice)
    requires !IsFinal(p) && !p.CStart? && Remembers(s.tables, p)
    requires p.XVerified? ==> Bound(s.tables, p.code.grant, p.code.binding)
    requires p.RVerified? ==> Bound(s.tables, p.tok.grant, p.tok.binding)
    ensures Remembers(s.tables, StepEffect(env, s, p, now, c).phase)
    ensures !StepEffect(env, s, p, now, c).phase.CGranted?
  {
  }

  lemma StepRemembers(env: Env, s: Hub, p: Phase, now: int, c: Choice)
    requires !IsFinal(p) && FreshFor(s.tables, p, c.drawn) && Remembers(s.tables, p) && now > 0
    requires p.CStart? ==> forall h :: h in s.tables.codes ==> s.tables.codes[h].grant != c.drawn
    requires p.XVerified? ==> Bound(s.tables, p.code.grant, p.code.binding)
    requires p.RVerified? ==> Bound(s.tables, p.tok.grant, p.tok.binding)
    ensures var f := StepEffect(env, s, p, now, c);
            Remembers(Perform(s.tables, f.write), f.phase)
  {
    if !p.CStart? {
      PhaseRemembers(env, s, p, now, c);
      StepWriteOk(env, s, p, now, c);
      RemembersSurvives(s.tables, StepEffect(env, s, p, now, c).write, StepEffect(env, s, p, now, c).phase);
    }
  }

  /** A claim just taken, or carried on from an earlier phase of the request. */
  lemma StepClaimFrom(env: Env, s: Hub, p: Phase, now: int, c: Choice)
    requires !IsFinal(p) && s.clock <= now && Claim(StepEffect(env, s, p, now, c).phase).Some?
    ensures var q := StepEffect(env, s, p, now, c).phase;
            || (p.XRead? && q.XClaimed? && q.x == p.x && q.claimedAt == now)
            || (Claim(p) == Claim(q) && p.XClaimed? && q.XVerified? && !Expired(p.code.expires, now))
            || (Claim(p) == Claim(q) && PastExpiryCheck(p))
  {
  }

  lemma StepClaimOk(env: Env, s: Hub, id: nat, now: int, c: Choice)
    requires Enabled(s, Advance(id, now, c)) && RequestOk(s, s.reqs[id]) && CodesPast(s)
    requires forall h :: h in s.tables.codes ==> s.tables.codes[h].expires != ZERO_TIME
    requires forall h :: h in s.claims ==> s.claims[h] <= s.clock
    ensures var s' := Apply(env, s, Advance(id, now, c)); ClaimOk(s', s'.reqs[id])
  {
    var p := s.reqs[id];
    var q := StepEffect(env, s, p, now, c).phase;
    if Claim(q).Some? {
      StepClaimFrom(env, s, p, now, c);
      if p.XRead? {
        assert ClaimOk(Apply(env, s, Advance(id, now, c)), q);
      } else {
        assert ClaimOk(s, p);
        OtherClaimOk(env, s, id, now, c, p);
      }
    }
  }

  lemma OtherClaimOk(env: Env, s: Hub, id: nat, now: int, c: Choice, q: Phase)
    requires Enabled(s, Advance(id, now, c)) && Remembers(s.tables, s.reqs[id]) && ClaimOk(s, q)
    requires forall h :: h in s.claims ==> s.claims[h] <= s.clock
    ensures ClaimOk(Apply(env, s, Advance(id, now, c)), q)
  {
    var f := StepEffect(env, s, s.reqs[id], now, c);
    StepWriteOk(env, s, s.reqs[id], now, c);
    WriteExtends(s.tables, f.write);
    StepClaims(env, s, s.reqs[id], now, c);
    if Claim(q).Some? {
      var h := Claim(q).value.0;
      assert KnownCode(Perform(s.tables, f.write), h, s.tables.codes[h]);
    }
  }

  predicate Apart(p: Phase, q: Phase) {
    ClaimsApart(p, q) && ConsentsApart(p, q)
  }

  lemma StepClaimsApart(env: Env, s: Hub, p: Phase, now: int, c: Choice, q: Phase)
    requires !IsFinal(p) && s.clock <= now && ClaimOk(s, q) && ClaimsApart(p, q)
    ensures ClaimsApart(StepEffect(env, s, p, now, c).phase, q)
  {
    if Claim(StepEffect(env, s, p, now, c).phase).Some? {
      StepClaimFrom(env, s, p, now, c);
    }
  }

  lemma StepConsentsApart(env: Env, s: Hub, p: Phase, now: int, c: Choice, q: Phase)
    requires !IsFinal(p) && FreshFor(s.tables, p, c.drawn) && Remembers(s.tables, q)
    ensures ConsentsApart(StepEffect(env, s, p, now, c).phase, q)
  {
  }

  lemma StepCodesPast(env: Env, s: Hub, id: nat, now: int, c: Choice)
    requires Enabled(s, Advance(id, now, c)) && RequestOk(s, s.reqs[id]) && CodesPast(s)
    ensures CodesPast(Apply(env, s, Advance(id, now, c)))
  {
    var f := StepEffect(env, s, s.reqs[id], now, c);
    StepWriteOk(env, s, s.reqs[id], now, c);
    var t' := Perform(s.tables, f.write);
    forall h | h in t'.codes ensures t'.codes[h].expires - AUTH_CODE_TTL <= now {
      assert h in s.tables.codes ==> t'.codes[h].expires == s.tables.codes[h].expires;
    }
  }

  lemma SelfRemembers(env: Env, s: Hub, p: Phase, now: int, c: Choice)
    requires !IsFinal(p) && FreshFor(s.tables, p, c.drawn) && Remembers(s.tables, p) && now > 0
    requires RowsBound(s.tables)
    ensures var f := StepEffect(env, s, p, now, c);
            Remembers(Perform(s.tables, f.write), f.phase)
  {
    if p.CStart? { NewGrantHasNoCode(s.tables, c.drawn); }
    if p.XVerified? { assert p.x.code in s.tables.codes; }
    if p.RVerified? { assert p.hash in s.tables.tokens; }
    StepRemembers(env, s, p, now, c);
  }

  lemma AdvanceKeepsSelf(env: Env, s: Hub, id: nat, now: int, c: Choice)
    requires Enabled(s, Advance(id, now, c)) && RequestOk(s, s.reqs[id])
    requires RowsBound(s.tables) && CodesPast(s) && now > 0
    requires forall h :: h in s.claims ==> s.claims[h] <= s.clock
    ensures var s' := Apply(env, s, Advance(id, now, c)); RequestOk(s', s'.reqs[id])
  {
    var p := s.reqs[id];
    SelfRemembers(env, s, p, now, c);
    StepClaimOk(env, s, id, now, c);
    var q := StepEffect(env, s, p, now, c).phase;
    assert q.CGranted? ==> q.at <= now;
  }

  lemma AdvanceKeepsOther(env: Env, s: Hub, id: nat, now: int, c: Choice, q: Phase)
    requires Enabled(s, Advance(id, now, c)) && Remembers(s.tables, s.reqs[id])
    requires RequestOk(s, q) && ConsentsApart(s.reqs[id], q)
    requires forall h :: h in s.claims ==> s.claims[h] <= s.clock
    ensures RequestOk(Apply(env, s, Advance(id, now, c)), q)
  {
    StepWriteOk(env, s, s.reqs[id], now, c);
    RemembersSurvives(s.tables, StepEffect(env, s, s.reqs[id], now, c).write, q);
    OtherClaimOk(env, s, id, now, c, q);
  }

  lemma AdvanceKeepsApart(env: Env, s: Hub, id: nat, now: int, c: Choice, i: nat, j: nat)
    requires CanStep(s, id, now, c) && i in s.reqs && j in s.reqs && i != j
    ensures var s' := Apply(env, s, Advance(id, now, c)); Apart(s'.reqs[i], s'.reqs[j])
  {
    assert Apart(s.reqs[i], s.reqs[j]) && Apart(s.reqs[j], s.reqs[i]);
    assert RequestOk(s, s.reqs[i]) && RequestOk(s, s.reqs[j]);
    if i == id {
      StepClaimsApart(env, s, s.reqs[i], now, c, s.reqs[j]);
      StepConsentsApart(env, s, s.reqs[i], now, c, s.reqs[j]);
    } else if j == id {
      StepClaimsApart(env, s, s.reqs[j], now, c, s.reqs[i]);
      StepConsentsApart(env, s, s.reqs[j], now, c, s.reqs[i]);
    }
  }

  lemma AdvanceKeepsInv(env: Env, s: Hub, id: nat, now: int, c: Choice)
    requires CanStep(s, id, now, c)
    ensures Inv(Apply(env, s, Advance(id, now, c)))
    ensures Extends(s.tables, Apply(env, s, Advance(id, now, c)).tables)
  {
    var s' := Apply(env, s, Advance(id, now, c));
    assert RequestOk(s, s.reqs[id]);
    StepWriteOk(env, s, s.reqs[id], now, c);
    WriteExtends(s.tables, StepEffect(env, s, s.reqs[id], now, c).write);
    WriteKeepsRows(s.tables, StepEffect(env, s, s.reqs[id], now, c).write);
    StepCodesPast(env, s, id, now, c);
    StepClaims(env, s, s.reqs[id], now, c);
    forall i | i in s'.reqs ensures RequestOk(s', s'.reqs[i]) {
      if i == id {
        AdvanceKeepsSelf(env, s, id, now, c);
      } else {
        assert RequestOk(s, s.reqs[i]) && ConsentsApart(s.reqs[id], s.reqs[i]);
        AdvanceKeepsOther(env, s, id, now, c, s.reqs[i]);
      }
    }
    forall i, j | i in s'.reqs && j in s'.reqs && i != j ensures Apart(s'.reqs[i], s'.reqs[j]) {
      AdvanceKeepsApart(env, s, id, now, c, i, j);
    }
  }

  lemma QuietKeepsRequest(env: Env, s: Hub, e: Event, q: Phase)
    requires Enabled(s, e) && !e.Advance? && RequestOk(s, q)
    ensures RequestOk(Apply(env, s, e), q)
  {
  }

  lemma ArriveKeepsApart(env: Env, s: Hub, e: Event)
    requires Enabled(s, e) && e.Arrive?
    requires forall i, j :: i in s.reqs && j in s.reqs && i != j ==> Apart(s.reqs[i], s.reqs[j])
    ensures var r := Apply(env, s, e).reqs;
            forall i, j :: i in r && j in r && i != j ==> Apart(r[i], r[j])
  {
  }

  lemma ArriveKeepsRequests(env: Env, s: Hub, e: Event)
    requires Enabled(s, e) && e.Arrive?
    requires forall i :: i in s.reqs ==> RequestOk(s, s.reqs[i])
    ensures var s' := Apply(env, s, e); forall i :: i in s'.reqs ==> RequestOk(s', s'.reqs[i])
  {
    var s' := Apply(env, s, e);
    forall i | i in s'.reqs ensures RequestOk(s', s'.reqs[i]) {
      if i != e.id { QuietKeepsRequest(env, s, e, s.reqs[i]); }
    }
  }

  ghost predicate PairwiseApart(s: Hub) {
    forall i, j :: i in s.reqs && j in s.reqs && i != j ==> Apart(s.reqs[i], s.reqs[j])
  }

  lemma ArriveKeepsInv(env: Env, s: Hub, e: Event)
    requires Inv(s) && Enabled(s, e) && e.Arrive?
    ensures Inv(Apply(env, s, e)) && Extends(s.tables, Apply(env, s, e).tables)
  {
    assert PairwiseApart(s);
    ArriveKeepsApart(env, s, e);
    ArriveKeepsRequests(env, s, e);
    assert PairwiseApart(Apply(env, s, e));
  }

  lemma SetUserKeepsInv(env: Env, s: Hub, e: Event)
    requires Inv(s) && Enabled(s, e) && e.SetUser?
    ensures Inv(Apply(env, s, e)) && Extends(s.tables, Apply(env, s, e).tables)
  {
    var s' := Apply(env, s, e);
    forall i | i in s'.reqs ensures RequestOk(s', s'.reqs[i]) {
      QuietKeepsRequest(env, s, e, s.reqs[i]);
    }
  }

  /** Every event keeps the invariant. */
  lemma ApplyKeepsInv(env: Env, s: Hub, e: Event)
    requires Inv(s) && Enabled(s, e)
    ensures Inv(Apply(env, s, e)) && Extends(s.tables, Apply(env, s, e).tables)
  {
    match e
    case Advance(id, now, c) => AdvanceKeepsInv(env, s, id, now, c);
    case Arrive(_, _, _) => ArriveKeepsInv(env, s, e);
    case SetUser(_, _, _) => SetUserKeepsInv(env, s, e);
  }

  lemma {:induction false} RunKeepsInv(env: Env, s: Hub, es: seq<Event>)
    requires Inv(s) && IsRun(env, s, es)
    ensures Inv(After(env, s, es)) && Extends(s.tables, After(env, s, es).tables)
    decreases |es|
  {
    if es != [] {
      ApplyKeepsInv(env, s, es[0]);
      RunKeepsInv(env, Apply(env, s, es[0]), es[1..]);
      ExtendsTransitive(s.tables, Apply(env, s, es[0]).tables, After(env, s, es).tables);
    }
  }

  lemma InvHolds(env: Env, s0: Hub, es: seq<Event>)
    requires Initial(s0) && IsRun(env, s0, es)
    ensures Inv(After(env, s0, es))
  {
    assert Inv(s0);
    RunKeepsInv(env, s0, es);
  }

  // ------------------------------------------------------------- main results

  /** Both redeemers claimed the code within its one lifetime, so their claims
      cannot be twice that lifetime apart. */
  lemma RedeemersCollide(s: Hub, p: Phase, q: Phase, h: string)
    requires ClaimOk(s, p) && PastExpiryCheck(p) && Claim(p).Some? && Claim(p).value.0 == h
    requires ClaimOk(s, q) && PastExpiryCheck(q) && Claim(q).Some? && Claim(q).value.0 == h
    ensures !ClaimsApart(p, q)
  {
  }

  lemma OneRedeemer(s: Hub, h: string, i: nat, j: nat)
    requires Inv(s) && i in s.reqs && j in s.reqs && ReachedIssue(s.reqs[i], h) && ReachedIssue(s.reqs[j], h)
    ensures i == j
  {
    assert RequestOk(s, s.reqs[i]) && RequestOk(s, s.reqs[j]);
    if i != j {
      RedeemersCollide(s, s.reqs[i], s.reqs[j], h);
    }
  }

  /** In every reachable state at most one request has entered issuePair for a
      given code, although the consumed flag may never have been stored. */
  lemma SingleRedemption(env: Env, s0: Hub, es: seq<Event>, h: string, i: nat, j: nat)
    requires Initial(s0) && IsRun(env, s0, es)
    requires var s := After(env, s0, es);
             i in s.reqs && j in s.reqs && ReachedIssue(s.reqs[i], h) && ReachedIssue(s.reqs[j], h)
    ensures i == j
  {
    InvHolds(env, s0, es);
    OneRedeemer(After(env, s0, es), h, i, j);
  }

  /** The scope a code or token carries is its grant's, in every reachable state. */
  lemma RowsCarryTheirGrant(env: Env, s0: Hub, es: seq<Event>, h: string)
    requires Initial(s0) && IsRun(env, s0, es)
    ensures var t := After(env, s0, es).tables;
            && (h in t.codes ==> Bound(t, t.codes[h].grant, t.codes[h].binding))
            && (h in t.tokens ==> Bound(t, t.tokens[h].grant, t.tokens[h].binding))
  {
    InvHolds(env, s0, es);
  }

  /** The request is already past the grant read of an access check for `g`. */
  predicate PastGrantRead(p: Phase, g: string) {
    (p.AGrantRead? || p.Accepted?) && p.tok.grant == g
  }

  /** No store write brings a revoked grant back. */
  lemma RevocationIsFinal(t: Tables, w: Write, g: string)
    requires g in t.grants && t.grants[g].revoked && (w.PutGrant? ==> w.id !in t.grants)
    ensures g in Perform(t, w).grants && Perform(t, w).grants[g].revoked
  {
  }

  lemma RevokedStaysShut(env: Env, s: Hub, e: Event, g: string, i: nat)
    requires Enabled(s, e)
    requires g in s.tables.grants && s.tables.grants[g].revoked
    requires i in s.reqs ==> !PastGrantRead(s.reqs[i], g)
    ensures var s' := Apply(env, s, e);
            && g in s'.tables.grants && s'.tables.grants[g].revoked
            && (i in s'.reqs ==> !PastGrantRead(s'.reqs[i], g))
  {
    if e.Advance? {
      var f := StepEffect(env, s, s.reqs[e.id], e.now, e.choice);
      RevocationIsFinal(s.tables, f.write, g);
    }
  }

  /** Once a grant is revoked, no access check that had not already read it ever
      accepts a token of that grant: not a token issued later, and not one that
      a touch brought back to life. */
  lemma {:induction false} RevokedGrantNeverAccepts(env: Env, s: Hub, es: seq<Event>, g: string, i: nat)
    requires IsRun(env, s, es)
    requires g in s.tables.grants && s.tables.grants[g].revoked
    requires i in s.reqs ==> !PastGrantRead(s.reqs[i], g)
    ensures var s' := After(env, s, es);
            && g in s'.tables.grants && s'.tables.grants[g].revoked
            && (i in s'.reqs && s'.reqs[i].Accepted? ==> s'.reqs[i].tok.grant != g)
    decreases |es|
  {
    if es != [] {
      RevokedStaysShut(env, s, es[0], g, i);
      RevokedGrantNeverAccepts(env, Apply(env, s, es[0]), es[1..], g, i);
    }
  }

  /** A presentation of a code is a replay exactly when the row it read was
      consumed or a claim on the code is younger than twice its lifetime. */
  lemma ReplayDetected(env: Env, s: Hub, i: nat, now: int, c: Choice)
    requires CanStep(s, i, now, c) && s.reqs[i].XRead?
    ensures var h := s.reqs[i].x.code;
            StepEffect(env, s, s.reqs[i], now, c).phase.XReplayTokens? <==>
              s.reqs[i].code.consumed || (h in s.claims && now - s.claims[h] <= 2 * AUTH_CODE_TTL)
  {
  }

  /** A second presentation within twice the lifetime of the first one's claim
      is always treated as a replay. */
  lemma SecondPresentationIsReplay(env: Env, s: Hub, i: nat, j: nat, now: int, c: Choice)
    requires CanStep(s, j, now, c) && s.reqs[j].XRead? && i in s.reqs
    requires Claim(s.reqs[i]).Some? && Claim(s.reqs[i]).value.0 == s.reqs[j].x.code
    requires now <= Claim(s.reqs[i]).value.1 + 2 * AUTH_CODE_TTL
    ensures StepEffect(env, s, s.reqs[j], now, c).phase.XReplayTokens?
  {
    assert RequestOk(s, s.reqs[i]);
  }

  /** The replay's grant revocation always finds its grant: the code names the
      grant's own user. */
  lemma ReplayRevokes(env: Env, s: Hub, i: nat, now: int, c: Choice)
    requires CanStep(s, i, now, c) && s.reqs[i].XReplayGrant? && c.ok
    ensures var t := Apply(env, s, Advance(i, now, c)).tables;
            var g := s.reqs[i].code.grant;
            g in t.grants && t.grants[g].revoked
  {
    assert RequestOk(s, s.reqs[i]);
  }

  /** End to end: after a detected replay has revoked its grant, no later run
      ends with an access check, started at any time from then on, accepting a
      token of that grant. */
  lemma ReplayKillsGrantForGood(
      env: Env, s0: Hub, es: seq<Event>, i: nat, now: int, c: Choice, fs: seq<Event>, k: nat)
    requires Initial(s0) && IsRun(env, s0, es)
    requires var s := After(env, s0, es);
             && Enabled(s, Advance(i, now, c)) && s.reqs[i].XReplayGrant? && c.ok
             && IsRun(env, Apply(env, s, Advance(i, now, c)), fs)
             && k !in s.reqs
    ensures var s := After(env, s0, es);
            var s2 := After(env, Apply(env, s, Advance(i, now, c)), fs);
            k in s2.reqs && s2.reqs[k].Accepted? ==> s2.reqs[k].tok.grant != s.reqs[i].code.grant
  {
    var s := After(env, s0, es);
    InvHolds(env, s0, es);
    ReplayRevokes(env, s, i, now, c);
    RevokedGrantNeverAccepts(env, Apply(env, s, Advance(i, now, c)), fs, s.reqs[i].code.grant, k);
  }
}

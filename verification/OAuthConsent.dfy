/** Where codes come from: each one goes back to the consent of one person, and a
    request that redeems it holds the verifier of that consent's challenge. */
module OAuthConsent {
  import opened OAuthStore
  import opened OAuthProtocol
  import opened OAuthHistory
  import opened OAuthIssuance

  /** At step `n` request `k`, a consent to these terms, drew the grant's id. */
  predicate ConsentedAt(env: Env, s0: Hub, es: seq<Event>, k: nat, grant: string, b: Binding, redirect: string,
                        challenge: string, at: int, n: nat)
    requires IsRun(env, s0, es)
  {
    Steps(es, n, k) && PhaseAt(env, s0, es, k, n) == Some(CStart(b, redirect, challenge))
    && es[n].choice.drawn == grant && es[n].now == at
  }

  ghost predicate Consented(env: Env, s0: Hub, es: seq<Event>, grant: string, b: Binding, redirect: string,
                            challenge: string, at: int, before: nat)
    requires IsRun(env, s0, es)
  {
    exists k: nat, n: nat :: n < before && ConsentedAt(env, s0, es, k, grant, b, redirect, challenge, at, n)
  }

  /** The row says what its consent said, and lives a minute from it. */
  ghost predicate Traced(env: Env, s0: Hub, es: seq<Event>, code: AuthCode, before: nat)
    requires IsRun(env, s0, es)
  {
    Consented(env, s0, es, code.grant, code.binding, code.redirect, code.challenge, code.expires - 60 * SECOND, before)
  }

  ghost predicate PhaseTraced(env: Env, s0: Hub, es: seq<Event>, p: Phase, before: nat)
    requires IsRun(env, s0, es)
  {
    p.CGranted? ==> Consented(env, s0, es, p.grant, p.consent, p.redirect, p.challenge, p.at, before)
  }

  ghost predicate AllTraced(env: Env, s0: Hub, es: seq<Event>, n: nat)
    requires IsRun(env, s0, es) && n <= |es|
  {
    var s := StateAt(env, s0, es, n);
    && (forall h :: h in s.tables.codes ==> Traced(env, s0, es, s.tables.codes[h], n))
    && (forall k :: k in s.reqs ==> PhaseTraced(env, s0, es, s.reqs[k], n))
  }

  /** A code row after a write: as before up to its consumed flag, or the new one. */
  lemma CodeAfter(t: Tables, w: Write, h: string)
    requires h in Perform(t, w).codes
    ensures var code := Perform(t, w).codes[h];
            (w.PutCode? && w.hash == h && w.code == code)
            || (h in t.codes && code == t.codes[h].(consumed := code.consumed))
  {
  }

  /** Only a granted consent stores a code, and only a consent becomes granted. */
  lemma ConsentWrites(env: Env, s: Hub, p: Phase, now: int, c: Choice)
    requires !IsFinal(p)
    ensures var f := StepEffect(env, s, p, now, c);
            && (f.write.PutCode? ==>
                  p.CGranted? && c.ok
                  && f.write.code == AuthCode(p.grant, p.consent, p.redirect, p.challenge, p.at + 60 * SECOND, false))
            && (f.phase.CGranted? ==>
                  p.CStart? && f.phase == CGranted(c.drawn, p.consent, p.redirect, p.challenge, now))
  {
  }

  lemma CodesTraced(env: Env, s0: Hub, es: seq<Event>, n: nat, h: string)
    requires IsRun(env, s0, es) && n < |es| && AllTraced(env, s0, es, n)
    requires h in At(env, s0, es, n + 1).codes
    ensures Traced(env, s0, es, At(env, s0, es, n + 1).codes[h], n + 1)
  {
    StateAtNext(env, s0, es, n);
    var s, e := StateAt(env, s0, es, n), es[n];
    if e.Advance? {
      StoredCodeTraced(env, s0, es, n, h, s, e);
    } else {
      assert Traced(env, s0, es, s.tables.codes[h], n);
    }
  }

  lemma StoredCodeTraced(env: Env, s0: Hub, es: seq<Event>, n: nat, h: string, s: Hub, e: Event)
    requires IsRun(env, s0, es) && n < |es| && AllTraced(env, s0, es, n) && s == StateAt(env, s0, es, n)
    requires Enabled(s, e) && e.Advance?
    requires h in Apply(env, s, e).tables.codes
    ensures Traced(env, s0, es, Apply(env, s, e).tables.codes[h], n + 1)
  {
    var p := s.reqs[e.id];
    var f := StepEffect(env, s, p, e.now, e.choice);
    CodeAfter(s.tables, f.write, h);
    ConsentWrites(env, s, p, e.now, e.choice);
    if f.write.PutCode? && f.write.hash == h && f.write.code == Apply(env, s, e).tables.codes[h] {
      assert PhaseTraced(env, s0, es, p, n);
    } else {
      assert Traced(env, s0, es, s.tables.codes[h], n);
    }
  }

  lemma PhasesTraced(env: Env, s0: Hub, es: seq<Event>, n: nat, k: nat)
    requires IsRun(env, s0, es) && n < |es| && AllTraced(env, s0, es, n)
    requires k in StateAt(env, s0, es, n + 1).reqs
    ensures PhaseTraced(env, s0, es, StateAt(env, s0, es, n + 1).reqs[k], n + 1)
  {
    StateAtNext(env, s0, es, n);
    var s, e := StateAt(env, s0, es, n), es[n];
    if Steps(es, n, k) {
      ConsentWrites(env, s, s.reqs[k], e.now, e.choice);
      var q := StateAt(env, s0, es, n + 1).reqs[k];
      if q.CGranted? {
        assert ConsentedAt(env, s0, es, k, q.grant, q.consent, q.redirect, q.challenge, q.at, n);
      }
    } else if k in s.reqs {
      OthersKeep(env, s, e, k);
      assert PhaseTraced(env, s0, es, s.reqs[k], n);
    }
  }

  lemma {:induction false} TracedAlways(env: Env, s0: Hub, es: seq<Event>, n: nat)
    requires Initial(s0) && IsRun(env, s0, es) && n <= |es|
    ensures AllTraced(env, s0, es, n)
  {
    if n > 0 {
      TracedAlways(env, s0, es, n - 1);
      var s := StateAt(env, s0, es, n);
      forall h | h in s.tables.codes ensures Traced(env, s0, es, s.tables.codes[h], n) {
        CodesTraced(env, s0, es, n - 1, h);
      }
      forall k | k in s.reqs ensures PhaseTraced(env, s0, es, s.reqs[k], n) { PhasesTraced(env, s0, es, n - 1, k); }
    }
  }

  /** Over every run from the empty hub: a request that issues tokens for a code
      redeems the consent of one person. That consent was to this client and this
      redirect, the request's verifier hashes to its challenge, and the proof came
      no later than a minute after it. */
  lemma RedeemsOneConsent(env: Env, s0: Hub, es: seq<Event>, k: nat)
    returns (x: ExchangeForm, b: Binding, grant: string, challenge: string, who: nat, n0: nat, n: nat)
    requires Initial(s0) && IsRun(env, s0, es) && k in After(env, s0, es).reqs
    requires var p := After(env, s0, es).reqs[k]; Issues(p) && p.origin.FromCode?
    ensures n0 < n < |es| && Steps(es, n, k) && x.code == After(env, s0, es).reqs[k].origin.hash
    ensures ConsentedAt(env, s0, es, who, grant, b, x.redirect, challenge, es[n0].now, n0)
    ensures es[n].now <= es[n0].now + 60 * SECOND
    ensures x.client == b.client && (x.resource == "" || x.resource == b.resource)
    ensures challenge != "" && 43 <= |x.verifier| <= 128 && env.s256(x.verifier) == challenge
    ensures var p := After(env, s0, es).reqs[k]; !p.Served? ==> p.grant == grant && p.binding == b
  {
    var code, n1, n3;
    x, code, n1, n, n3 := CodeIsProved(env, s0, es, k);
    grant, b, challenge := code.grant, code.binding, code.challenge;
    TracedAlways(env, s0, es, n1);
    assert Traced(env, s0, es, code, n1);
    who, n0 :| n0 < n1 && ConsentedAt(env, s0, es, who, grant, b, code.redirect, challenge, code.expires - 60 * SECOND,
        n0);
    ClockPositive(env, s0, es, n0);
  }

  lemma {:induction false} ClockPositive(env: Env, s0: Hub, es: seq<Event>, n: nat)
    requires Initial(s0) && IsRun(env, s0, es) && n < |es|
    ensures es[n].now > 0 && StateAt(env, s0, es, n).clock > 0
  {
    if n > 0 { ClockPositive(env, s0, es, n - 1); StateAtNext(env, s0, es, n - 1); }
    StateAtNext(env, s0, es, n);
  }
}

/** What a request has been through, told from the moments of its run: an
    accepted access check, and a refresh that met a rotated token. */
module OAuthHistory {
  import opened OAuthStore
  import opened OAuthProtocol

  /** The state after the first `n` events. */
  function StateAt(env: Env, s: Hub, es: seq<Event>, n: nat): Hub
    requires IsRun(env, s, es) && n <= |es|
    decreases n
  {
    if n == 0 then s else StateAt(env, Apply(env, s, es[0]), es[1..], n - 1)
  }

  lemma {:induction false} StateAtEnd(env: Env, s: Hub, es: seq<Event>)
    requires IsRun(env, s, es)
    ensures StateAt(env, s, es, |es|) == After(env, s, es)
    decreases |es|
  {
    if es != [] { StateAtEnd(env, Apply(env, s, es[0]), es[1..]); }
  }

  lemma {:induction false} StateAtNext(env: Env, s: Hub, es: seq<Event>, n: nat)
    requires IsRun(env, s, es) && n < |es|
    ensures Enabled(StateAt(env, s, es, n), es[n])
    ensures StateAt(env, s, es, n + 1) == Apply(env, StateAt(env, s, es, n), es[n])
    decreases n
  {
    if n > 0 { StateAtNext(env, Apply(env, s, es[0]), es[1..], n - 1); }
  }

  /** Event `n` is a step of request `k`. */
  predicate Steps(es: seq<Event>, n: nat, k: nat) {
    n < |es| && es[n].Advance? && es[n].id == k
  }

  // --------------------------------------------------------------- acceptance

  /** At step `n` the token was stored, live, an access token, and unexpired. */
  predicate TokenHeld(env: Env, s0: Hub, es: seq<Event>, k: nat, hash: string, tok: Token, n: nat)
    requires IsRun(env, s0, es)
  {
    Steps(es, n, k) &&
    var t := StateAt(env, s0, es, n).tables;
    hash in t.tokens && t.tokens[hash] == tok && !tok.revoked && tok.kind == AccessKind
        && (tok.expires == 0 || es[n].now <= tok.expires)
  }

  /** At step `n` the grant was live. */
  predicate GrantHeld(env: Env, s0: Hub, es: seq<Event>, k: nat, grant: string, n: nat)
    requires IsRun(env, s0, es)
  {
    Steps(es, n, k) && GetGrant(StateAt(env, s0, es, n).tables, grant).Some?
  }

  /** At step `n` the user existed and was enabled. */
  predicate UserHeld(env: Env, s0: Hub, es: seq<Event>, k: nat, user: string, n: nat)
    requires IsRun(env, s0, es)
  {
    Steps(es, n, k) &&
    var t := StateAt(env, s0, es, n).tables;
    user in t.users && !t.users[user]
  }

  ghost predicate TokenSeen(env: Env, s0: Hub, es: seq<Event>, k: nat, hash: string, tok: Token, before: nat)
    requires IsRun(env, s0, es)
  {
    exists n1: nat :: n1 < before && TokenHeld(env, s0, es, k, hash, tok, n1)
  }

  ghost predicate GrantSeen(env: Env, s0: Hub, es: seq<Event>, k: nat, hash: string, tok: Token, before: nat)
    requires IsRun(env, s0, es)
  {
    exists n2: nat :: n2 < before && GrantHeld(env, s0, es, k, tok.grant, n2)
        && TokenSeen(env, s0, es, k, hash, tok, n2)
  }

  ghost predicate UserSeen(env: Env, s0: Hub, es: seq<Event>, k: nat, hash: string, tok: Token, before: nat)
    requires IsRun(env, s0, es)
  {
    exists n3: nat :: n3 < before && UserHeld(env, s0, es, k, tok.binding.user, n3)
        && GrantSeen(env, s0, es, k, hash, tok, n3)
  }

  /** How far the check has come says what it has seen, and in which order. */
  ghost predicate Climbed(env: Env, s0: Hub, es: seq<Event>, k: nat, n: nat)
    requires IsRun(env, s0, es) && n <= |es|
  {
    var s := StateAt(env, s0, es, n);
    k in s.reqs ==>
      match s.reqs[k]
      case ATokenRead(hash, tok) => TokenSeen(env, s0, es, k, hash, tok, n)
      case AGrantRead(hash, tok) => GrantSeen(env, s0, es, k, hash, tok, n)
      case Accepted(hash, tok) => UserSeen(env, s0, es, k, hash, tok, n)
      case _ => true
  }

  lemma ClimbedStays(env: Env, s0: Hub, es: seq<Event>, k: nat, n: nat)
    requires IsRun(env, s0, es) && n < |es| && Climbed(env, s0, es, k, n) && !Steps(es, n, k)
    ensures Climbed(env, s0, es, k, n + 1)
  {
    StateAtNext(env, s0, es, n);
    var s, next := StateAt(env, s0, es, n), StateAt(env, s0, es, n + 1);
    assert k in s.reqs ==> k in next.reqs && next.reqs[k] == s.reqs[k];
  }

  lemma ClimbedSteps(env: Env, s0: Hub, es: seq<Event>, k: nat, n: nat)
    requires IsRun(env, s0, es) && n < |es| && Climbed(env, s0, es, k, n) && Steps(es, n, k)
    ensures Climbed(env, s0, es, k, n + 1)
  {
    StateAtNext(env, s0, es, n);
    var s, next := StateAt(env, s0, es, n), StateAt(env, s0, es, n + 1);
    var p := s.reqs[k];
    match next.reqs[k] {
      case ATokenRead(hash, tok) =>
        assert p == AStart(hash);
        assert TokenHeld(env, s0, es, k, hash, tok, n);
      case AGrantRead(hash, tok) =>
        assert p == ATokenRead(hash, tok);
        assert GrantHeld(env, s0, es, k, tok.grant, n);
      case Accepted(hash, tok) =>
        assert p == AGrantRead(hash, tok);
        assert UserHeld(env, s0, es, k, tok.binding.user, n);
      case _ =>
    }
  }

  lemma {:induction false} ClimbedAlways(env: Env, s0: Hub, es: seq<Event>, k: nat, n: nat)
    requires IsRun(env, s0, es) && n <= |es| && k !in s0.reqs
    ensures Climbed(env, s0, es, k, n)
  {
    if n > 0 {
      ClimbedAlways(env, s0, es, k, n - 1);
      if Steps(es, n - 1, k) { ClimbedSteps(env, s0, es, k, n - 1); } else { ClimbedStays(env, s0, es, k, n - 1); }
    }
  }

  /** An accepted check has, at three moments of its run in this order, found its
      token stored, live, an access token and unexpired; the token's grant live;
      and the token's user enabled. */
  lemma AcceptanceMeans(env: Env, s0: Hub, es: seq<Event>, k: nat) returns (n1: nat, n2: nat, n3: nat)
    requires IsRun(env, s0, es) && k !in s0.reqs
    requires k in After(env, s0, es).reqs && After(env, s0, es).reqs[k].Accepted?
    ensures var Accepted(hash, tok) := After(env, s0, es).reqs[k];
            && n1 < n2 < n3 < |es|
            && TokenHeld(env, s0, es, k, hash, tok, n1)
            && GrantHeld(env, s0, es, k, tok.grant, n2)
            && UserHeld(env, s0, es, k, tok.binding.user, n3)
  {
    var n := |es|;
    ClimbedAlways(env, s0, es, k, n);
    StateAtEnd(env, s0, es);
    var Accepted(hash, tok) := After(env, s0, es).reqs[k];
    assert UserSeen(env, s0, es, k, hash, tok, n);
    n3 :| n3 < n && UserHeld(env, s0, es, k, tok.binding.user, n3) && GrantSeen(env, s0, es, k, hash, tok, n3);
    n2 :| n2 < n3 && GrantHeld(env, s0, es, k, tok.grant, n2) && TokenSeen(env, s0, es, k, hash, tok, n2);
    n1 :| n1 < n2 && TokenHeld(env, s0, es, k, hash, tok, n1);
  }

  // --------------------------------------------------- a rotated token's refusal

  /** Event `n` belongs to request `k`: its arrival or one of its steps. */
  predicate Belongs(es: seq<Event>, n: nat, k: nat) {
    n < |es| && (Steps(es, n, k) || (es[n].Arrive? && es[n].id == k))
  }

  lemma {:induction false} FinalStays(env: Env, s: Hub, es: seq<Event>, k: nat, m: nat, n: nat)
    requires IsRun(env, s, es) && m <= n <= |es|
    requires k in StateAt(env, s, es, m).reqs && IsFinal(StateAt(env, s, es, m).reqs[k])
    ensures k in StateAt(env, s, es, n).reqs && StateAt(env, s, es, n).reqs[k] == StateAt(env, s, es, m).reqs[k]
    ensures n < |es| ==> !Belongs(es, n, k)
  {
    if m < n {
      FinalStays(env, s, es, k, m, n - 1);
      StateAtNext(env, s, es, n - 1);
    }
    if n < |es| { StateAtNext(env, s, es, n); }
  }

  /** A refresh whose first step meets a rotated, and so revoked, token is
      refused for good, and from its arrival to the end of the run no event of it
      changes a table: every token, the pair issued from the rotated one
      included, is as live after as before. */
  lemma RotatedTokenIsOnlyRefused(env: Env, s: Hub, es: seq<Event>, k: nat, met: nat, n: nat)
    requires IsRun(env, s, es) && Steps(es, met, k) && n < |es|
    requires forall m :: 0 <= m < met ==> !Steps(es, m, k)
    requires k in StateAt(env, s, es, met).reqs && StateAt(env, s, es, met).reqs[k].RStart?
    requires var at := StateAt(env, s, es, met);
             at.reqs[k].hash in at.tables.tokens && at.tables.tokens[at.reqs[k].hash].revoked
    ensures Belongs(es, n, k) ==> StateAt(env, s, es, n + 1).tables == StateAt(env, s, es, n).tables
    ensures n >= met ==> k in StateAt(env, s, es, n + 1).reqs && StateAt(env, s, es, n + 1).reqs[k] == Finished(false)
  {
    StateAtNext(env, s, es, n);
    StateAtNext(env, s, es, met);
    if n > met { FinalStays(env, s, es, k, met + 1, n); }
    if n >= met { FinalStays(env, s, es, k, met + 1, n + 1); }
  }

  // ----------------------------------------------- revoking somebody else's grant

  predicate LiveOf(t: Tables, grant: string, h: string) {
    h in t.tokens && t.tokens[h].grant == grant && !t.tokens[h].revoked
  }

  ghost predicate NoneLive(t: Tables, grant: string) {
    forall h :: !LiveOf(t, grant, h)
  }

  /** A complete family revocation changes the tables exactly when it finds a live
      token, and leaves none. */
  lemma RevokeChangesIff(t: Tables, grant: string, hit: set<string>)
    ensures var next := Perform(t, RevokeTokens(grant, true, hit));
            && (next != t <==> exists h :: LiveOf(t, grant, h))
            && NoneLive(next, grant)
  {
    var next := Perform(t, RevokeTokens(grant, true, hit));
    if h :| LiveOf(t, grant, h) {
      assert next.tokens[h] != t.tokens[h];
    } else {
      forall h | h in t.tokens ensures next.tokens[h] == t.tokens[h] { assert !LiveOf(t, grant, h); }
      assert next.tokens == t.tokens;
    }
  }

  /** A family revocation, complete or not, revokes the grant's tokens that it
      reaches, and changes no other token and nothing else about these. */
  lemma RevokeReaches(t: Tables, grant: string, complete: bool, hit: set<string>, h: string)
    ensures var next := Perform(t, RevokeTokens(grant, complete, hit));
            && (h in next.tokens <==> h in t.tokens)
            && (h in t.tokens ==>
                  var reached := t.tokens[h].grant == grant && (complete || h in hit);
                  next.tokens[h] == t.tokens[h].(revoked := t.tokens[h].revoked || reached))
            && next.grants == t.grants && next.codes == t.codes && next.users == t.users
  {
  }

  predicate OwnedByOther(t: Tables, user: string, grant: string) {
    grant in t.grants && t.grants[grant].binding.user != user
  }

  /** Only a consent stores a grant, under a new id. */
  lemma WritesNoOldGrant(env: Env, s: Hub, e: Event, grant: string)
    requires Enabled(s, e) && e.Advance? && grant in s.tables.grants
    ensures var w := StepEffect(env, s, s.reqs[e.id], e.now, e.choice).write;
            !(w.PutGrant? && w.id == grant)
  {
  }

  lemma WriteKeepsOwner(t: Tables, w: Write, user: string, grant: string)
    requires OwnedByOther(t, user, grant) && !(w.PutGrant? && w.id == grant)
    ensures OwnedByOther(Perform(t, w), user, grant)
  {
  }

  lemma OwnerStays(env: Env, s: Hub, e: Event, user: string, grant: string)
    requires Enabled(s, e) && OwnedByOther(s.tables, user, grant)
    ensures OwnedByOther(Apply(env, s, e).tables, user, grant)
  {
    if e.Advance? {
      var w := StepEffect(env, s, s.reqs[e.id], e.now, e.choice).write;
      WritesNoOldGrant(env, s, e, grant);
      WriteKeepsOwner(s.tables, w, user, grant);
    }
  }

  /** A grant keeps its owner, and a request its phase, while others step. */
  lemma {:induction false} Waits(env: Env, s: Hub, es: seq<Event>, k: nat, user: string, grant: string, m: nat, n: nat)
    requires IsRun(env, s, es) && m <= n <= |es| && k in StateAt(env, s, es, m).reqs
    requires OwnedByOther(StateAt(env, s, es, m).tables, user, grant)
    requires forall x :: m <= x < n ==> !Steps(es, x, k)
    ensures OwnedByOther(StateAt(env, s, es, n).tables, user, grant)
    ensures k in StateAt(env, s, es, n).reqs && StateAt(env, s, es, n).reqs[k] == StateAt(env, s, es, m).reqs[k]
  {
    if m < n {
      Waits(env, s, es, k, user, grant, m, n - 1);
      StateAtNext(env, s, es, n - 1);
      assert !Steps(es, n - 1, k);
      OwnerStays(env, StateAt(env, s, es, n - 1), es[n - 1], user, grant);
      OthersKeep(env, StateAt(env, s, es, n - 1), es[n - 1], k);
    }
  }

  lemma OthersKeep(env: Env, s: Hub, e: Event, k: nat)
    requires Enabled(s, e) && k in s.reqs && !(e.Advance? && e.id == k)
    ensures k in Apply(env, s, e).reqs && Apply(env, s, e).reqs[k] == s.reqs[k]
  {
  }

  lemma TokensGo(env: Env, s: Hub, e: Event, user: string, grant: string)
    requires Enabled(s, e) && e.Advance? && s.reqs[e.id] == GStart(user, grant) && e.choice.ok
    ensures var next := Apply(env, s, e);
            next.tables == Perform(s.tables, RevokeTokens(grant, true, e.choice.hit))
            && e.id in next.reqs && next.reqs[e.id] == GTokensGone(user, grant)
  {
  }

  lemma StrangerRefused(env: Env, s: Hub, e: Event, user: string, grant: string)
    requires Enabled(s, e) && e.Advance? && s.reqs[e.id] == GTokensGone(user, grant)
             && OwnedByOther(s.tables, user, grant)
    ensures var next := Apply(env, s, e);
            next.tables == s.tables && e.id in next.reqs && next.reqs[e.id] == Finished(false)
  {
  }

  /** Revoking a grant is meant for its owner alone, and the store refuses anybody
      else; but the grant's tokens go first. On every run, a stranger's request
      whose two steps both reach the store, at `m` and at `n`, ends refused, its
      second step changes nothing, and its first changes the tables if and only
      if the grant has a live token, after which it has none. */
  lemma ForeignRevokeHitsTokens(env: Env, s: Hub, es: seq<Event>, k: nat, user: string, grant: string, m: nat, n: nat)
    requires IsRun(env, s, es) && m < n && Steps(es, m, k) && Steps(es, n, k) && es[m].choice.ok
    requires forall x :: m < x < n ==> !Steps(es, x, k)
    requires k in StateAt(env, s, es, m).reqs && StateAt(env, s, es, m).reqs[k] == GStart(user, grant)
    requires OwnedByOther(StateAt(env, s, es, m).tables, user, grant)
    ensures var was, now := StateAt(env, s, es, m).tables, StateAt(env, s, es, m + 1).tables;
            (now != was <==> exists h :: LiveOf(was, grant, h)) && NoneLive(now, grant)
    ensures StateAt(env, s, es, n + 1).tables == StateAt(env, s, es, n).tables
    ensures k in StateAt(env, s, es, n + 1).reqs && StateAt(env, s, es, n + 1).reqs[k] == Finished(false)
  {
    StateAtNext(env, s, es, m);
    TokensGo(env, StateAt(env, s, es, m), es[m], user, grant);
    RevokeChangesIff(StateAt(env, s, es, m).tables, grant, es[m].choice.hit);
    OwnerStays(env, StateAt(env, s, es, m), es[m], user, grant);
    Waits(env, s, es, k, user, grant, m + 1, n);
    StateAtNext(env, s, es, n);
    StrangerRefused(env, StateAt(env, s, es, n), es[n], user, grant);
  }
}

/** What one-at-a-time token requests add: a grant has at most one live access
    and one live refresh token, and a refresh token is redeemed at most once.
    Consents, revocations, access checks and touches still interleave freely. */
module OAuthSerial {
  import opened OAuthStore
  import opened OAuthProtocol
  import opened OAuthSafety

  /** The request is an unfinished call of the token endpoint. */
  predicate InToken(p: Phase) {
    p.XStart? || p.XRead? || p.XReplayTokens? || p.XReplayGrant? || p.XClaimed? || p.XVerified? ||
    p.RStart? || p.RRead? || p.RVerified? || p.Issue? || p.IssueRefresh?
  }

  predicate Live(t: Tables, h: string) {
    h in t.tokens && !t.tokens[h].revoked
  }

  /** A token request starts only when none is running, and a touch does not
      land on a token that was revoked since the touch read it. */
  ghost predicate Serial(s: Hub, e: Event) {
    match e
    case Arrive(_, _, start) => InToken(start) ==> forall i :: i in s.reqs ==> !InToken(s.reqs[i])
    case Advance(id, _, c) => id in s.reqs && s.reqs[id].TRead? && c.ok ==> Live(s.tables, s.reqs[id].hash)
    case SetUser(_, _, _) => true
  }

  ghost predicate IsSerialRun(env: Env, s: Hub, es: seq<Event>)
    decreases |es|
  {
    es == [] || (Enabled(s, es[0]) && Serial(s, es[0]) && IsSerialRun(env, Apply(env, s, es[0]), es[1..]))
  }

  lemma {:induction false} SerialRunIsRun(env: Env, s: Hub, es: seq<Event>)
    requires IsSerialRun(env, s, es)
    ensures IsRun(env, s, es)
    decreases |es|
  {
    if es != [] { SerialRunIsRun(env, Apply(env, s, es[0]), es[1..]); }
  }

  // ---------------------------------------------------------------- invariant

  ghost predicate OneAtATime(s: Hub) {
    forall i, j :: i in s.reqs && j in s.reqs && InToken(s.reqs[i]) && InToken(s.reqs[j]) ==> i == j
  }

  predicate SamePlace(a: Token, b: Token) {
    a.grant == b.grant && a.kind == b.kind
  }

  ghost predicate PairsUnique(t: Tables) {
    forall h1, h2 :: Live(t, h1) && Live(t, h2) && SamePlace(t.tokens[h1], t.tokens[h2]) ==> h1 == h2
  }

  /** `p` redeemed the code of grant `g`. */
  predicate Redeems(t: Tables, p: Phase, g: string) {
    (p.Issue? || p.IssueRefresh? || p.Served?) && p.origin.FromCode? &&
    p.origin.hash in t.codes && t.codes[p.origin.hash].grant == g
  }

  ghost predicate Redeemed(s: Hub, g: string) {
    exists i :: i in s.reqs && Redeems(s.tables, s.reqs[i], g)
  }

  /** Tokens exist only for grants whose code was redeemed. */
  ghost predicate TokensRedeemed(s: Hub) {
    forall h :: h in s.tables.tokens ==> Redeemed(s, s.tables.tokens[h].grant)
  }

  /** The pair a request is about to store does not exist yet. */
  ghost predicate RoomFor(t: Tables, p: Phase) {
    && (p.Issue? ==> forall h :: Live(t, h) ==> t.tokens[h].grant != p.grant)
    && (p.IssueRefresh? ==> forall h :: Live(t, h) && t.tokens[h].kind == RefreshKind ==> t.tokens[h].grant != p.grant)
  }

  predicate IssuedFromRefresh(p: Phase, h: string) {
    (p.Issue? || p.IssueRefresh? || p.Served?) && p.origin == FromRefresh(h)
  }

  predicate HoldsRefresh(p: Phase, h: string) {
    ((p.RRead? || p.RVerified?) && p.hash == h) || IssuedFromRefresh(p, h)
  }

  /** A refresh token a pair was issued from is revoked. */
  ghost predicate Rotated(t: Tables, p: Phase) {
    forall h :: IssuedFromRefresh(p, h) ==> h in t.tokens && t.tokens[h].revoked
  }

  /** The grant a running issue is for has had its code redeemed. */
  ghost predicate IssueRedeemed(s: Hub, p: Phase) {
    p.Issue? || p.IssueRefresh? ==> Redeemed(s, p.grant)
  }

  ghost predicate RefreshApart(p: Phase, q: Phase) {
    forall h :: !(HoldsRefresh(p, h) && HoldsRefresh(q, h))
  }

  ghost predicate RequestSerial(s: Hub, p: Phase) {
    RoomFor(s.tables, p) && Rotated(s.tables, p) && IssueRedeemed(s, p)
  }

  ghost predicate SerialInv(s: Hub) {
    && Inv(s) && OneAtATime(s) && PairsUnique(s.tables) && TokensRedeemed(s)
    && (forall i :: i in s.reqs ==> RequestSerial(s, s.reqs[i]))
    && (forall i, j :: i in s.reqs && j in s.reqs && i != j ==> RefreshApart(s.reqs[i], s.reqs[j]))
  }

  // ------------------------------------------------------------------- writes

  /** Only a token insert makes a token live. */
  lemma LiveShrinks(t: Tables, w: Write, h: string)
    requires !w.PutToken? && (w.Touch? ==> Live(t, w.hash))
    ensures Live(Perform(t, w), h) ==> Live(t, h) && Perform(t, w).tokens[h] == t.tokens[h]
    ensures h in t.tokens && t.tokens[h].revoked ==> Perform(t, w).tokens[h].revoked
  {
  }

  lemma RedeemerStays(env: Env, s: Hub, e: Event, i: nat, g: string)
    requires Enabled(s, e) && Extends(s.tables, Apply(env, s, e).tables)
    requires i in s.reqs && Redeems(s.tables, s.reqs[i], g)
    ensures var s' := Apply(env, s, e); i in s'.reqs && Redeems(s'.tables, s'.reqs[i], g)
  {
    assert KnownCode(Apply(env, s, e).tables, s.reqs[i].origin.hash, s.tables.codes[s.reqs[i].origin.hash]);
  }

  lemma RedeemedPersists(env: Env, s: Hub, e: Event, g: string)
    requires Enabled(s, e) && Extends(s.tables, Apply(env, s, e).tables) && Redeemed(s, g)
    ensures Redeemed(Apply(env, s, e), g)
  {
    var i :| i in s.reqs && Redeems(s.tables, s.reqs[i], g);
    RedeemerStays(env, s, e, i, g);
  }

  // ------------------------------------------------------- one token request

  lemma TokenHasRedeemer(s: Hub, h: string) returns (j: nat)
    requires TokensRedeemed(s) && h in s.tables.tokens
    ensures j in s.reqs && Redeems(s.tables, s.reqs[j], s.tables.tokens[h].grant)
  {
    j :| j in s.reqs && Redeems(s.tables, s.reqs[j], s.tables.tokens[h].grant);
  }

  /** The step of the running token request that is about to issue. */
  lemma FirstRedemptionFindsNoToken(s: Hub, i: nat, h: string)
    requires SerialInv(s) && i in s.reqs && s.reqs[i].XVerified? && h in s.tables.tokens
    ensures s.tables.tokens[h].grant != s.reqs[i].code.grant
  {
    var p := s.reqs[i];
    assert RequestOk(s, p);
    if s.tables.tokens[h].grant == p.code.grant {
      var j := TokenHasRedeemer(s, h);
      assert RequestOk(s, s.reqs[j]) && ClaimsApart(p, s.reqs[j]);
      RedeemersCollide(s, p, s.reqs[j], p.x.code);
      assert false;
    }
  }

  lemma StepRoom(env: Env, s: Hub, id: nat, now: int, c: Choice)
    requires Enabled(s, Advance(id, now, c)) && Remembers(s.tables, s.reqs[id]) && RoomFor(s.tables, s.reqs[id])
    requires s.reqs[id].XVerified? ==>
               forall h :: h in s.tables.tokens ==> s.tables.tokens[h].grant != s.reqs[id].code.grant
    ensures var s' := Apply(env, s, Advance(id, now, c)); RoomFor(s'.tables, s'.reqs[id])
  {
  }

  lemma OtherRoom(env: Env, s: Hub, id: nat, now: int, c: Choice, q: Phase)
    requires Enabled(s, Advance(id, now, c)) && Serial(s, Advance(id, now, c)) && RoomFor(s.tables, q)
    requires !(InToken(s.reqs[id]) && InToken(q))
    ensures RoomFor(Apply(env, s, Advance(id, now, c)).tables, q)
  {
    if q.Issue? || q.IssueRefresh? {
      var w := StepEffect(env, s, s.reqs[id], now, c).write;
      forall h ensures Live(Perform(s.tables, w), h)
          ==> Live(s.tables, h) && Perform(s.tables, w).tokens[h] == s.tables.tokens[h] {
        LiveShrinks(s.tables, w, h);
      }
    }
  }

  lemma StepPairs(env: Env, s: Hub, id: nat, now: int, c: Choice)
    requires Enabled(s, Advance(id, now, c)) && Serial(s, Advance(id, now, c))
    requires PairsUnique(s.tables) && RoomFor(s.tables, s.reqs[id])
    ensures PairsUnique(Apply(env, s, Advance(id, now, c)).tables)
  {
    var w := StepEffect(env, s, s.reqs[id], now, c).write;
    if !w.PutToken? {
      forall h ensures Live(Perform(s.tables, w), h)
          ==> Live(s.tables, h) && Perform(s.tables, w).tokens[h] == s.tables.tokens[h] {
        LiveShrinks(s.tables, w, h);
      }
    }
  }

  lemma OnlyIssueInserts(env: Env, s: Hub, p: Phase, now: int, c: Choice)
    requires !IsFinal(p)
    ensures var w := StepEffect(env, s, p, now, c).write;
            w.PutToken? ==> (p.Issue? || p.IssueRefresh?) && w.tok.grant == p.grant
  {
  }

  lemma OnlyInsertsAdd(t: Tables, w: Write, h: string)
    requires h in Perform(t, w).tokens && h !in t.tokens
    ensures w.PutToken? && Perform(t, w).tokens[h] == w.tok
  {
  }

  lemma StepTokensRedeemed(env: Env, s: Hub, id: nat, now: int, c: Choice)
    requires Enabled(s, Advance(id, now, c)) && TokensRedeemed(s) && IssueRedeemed(s, s.reqs[id])
    requires Extends(s.tables, Apply(env, s, Advance(id, now, c)).tables)
    ensures TokensRedeemed(Apply(env, s, Advance(id, now, c)))
  {
    var e := Advance(id, now, c);
    var t' := Apply(env, s, e).tables;
    forall h | h in t'.tokens ensures Redeemed(Apply(env, s, e), t'.tokens[h].grant) {
      if h in s.tables.tokens {
        assert KnownToken(t', h, s.tables.tokens[h]);
        RedeemedPersists(env, s, e, s.tables.tokens[h].grant);
      } else {
        OnlyIssueInserts(env, s, s.reqs[id], now, c);
        OnlyInsertsAdd(s.tables, StepEffect(env, s, s.reqs[id], now, c).write, h);
        RedeemedPersists(env, s, e, s.reqs[id].grant);
      }
    }
  }

  lemma StepIssueRedeemed(env: Env, s: Hub, id: nat, now: int, c: Choice)
    requires Enabled(s, Advance(id, now, c)) && TokensRedeemed(s) && IssueRedeemed(s, s.reqs[id])
    requires Remembers(s.tables, s.reqs[id])
    requires Extends(s.tables, Apply(env, s, Advance(id, now, c)).tables)
    ensures var s' := Apply(env, s, Advance(id, now, c)); IssueRedeemed(s', s'.reqs[id])
  {
    var e := Advance(id, now, c);
    var p := s.reqs[id];
    var f := StepEffect(env, s, p, now, c).phase;
    if p.Issue? {
      RedeemedPersists(env, s, e, p.grant);
    } else if p.RVerified? {
      assert s.tables.tokens[p.hash].grant == p.tok.grant;
      RedeemedPersists(env, s, e, p.tok.grant);
    } else if p.XVerified? && f.Issue? {
      var s' := Apply(env, s, e);
      assert KnownCode(s'.tables, p.x.code, s.tables.codes[p.x.code]);
      assert Redeems(s'.tables, s'.reqs[id], p.code.grant);
    }
  }

  lemma StepRotated(env: Env, s: Hub, id: nat, now: int, c: Choice, q: Phase)
    requires Enabled(s, Advance(id, now, c)) && Serial(s, Advance(id, now, c))
    requires Rotated(s.tables, q)
    ensures Rotated(Apply(env, s, Advance(id, now, c)).tables, q)
  {
    var w := StepEffect(env, s, s.reqs[id], now, c).write;
    forall h | IssuedFromRefresh(q, h)
      ensures h in Perform(s.tables, w).tokens && Perform(s.tables, w).tokens[h].revoked
    {
      if !w.PutToken? { LiveShrinks(s.tables, w, h); }
    }
  }

  lemma SelfRotated(env: Env, s: Hub, id: nat, now: int, c: Choice)
    requires Enabled(s, Advance(id, now, c)) && Serial(s, Advance(id, now, c))
    requires Rotated(s.tables, s.reqs[id]) && Remembers(s.tables, s.reqs[id])
    ensures var s' := Apply(env, s, Advance(id, now, c)); Rotated(s'.tables, s'.reqs[id])
  {
    StepRotated(env, s, id, now, c, s.reqs[id]);
  }

  lemma StepRefreshApart(env: Env, s: Hub, p: Phase, now: int, c: Choice, q: Phase)
    requires !IsFinal(p) && RefreshApart(p, q) && Rotated(s.tables, q) && !(InToken(p) && InToken(q))
    ensures RefreshApart(StepEffect(env, s, p, now, c).phase, q)
  {
    var f := StepEffect(env, s, p, now, c).phase;
    forall h ensures !(HoldsRefresh(f, h) && HoldsRefresh(q, h)) {
      assert HoldsRefresh(f, h) ==> HoldsRefresh(p, h) || (p.RStart? && Live(s.tables, h));
    }
  }

  lemma SelfKeepsSerial(env: Env, s: Hub, id: nat, now: int, c: Choice)
    requires SerialInv(s) && Enabled(s, Advance(id, now, c)) && Serial(s, Advance(id, now, c))
    ensures var s' := Apply(env, s, Advance(id, now, c)); RequestSerial(s', s'.reqs[id])
  {
    assert RequestOk(s, s.reqs[id]) && RequestSerial(s, s.reqs[id]);
    ApplyKeepsInv(env, s, Advance(id, now, c));
    if s.reqs[id].XVerified? {
      forall h | h in s.tables.tokens ensures s.tables.tokens[h].grant != s.reqs[id].code.grant {
        FirstRedemptionFindsNoToken(s, id, h);
      }
    }
    StepRoom(env, s, id, now, c);
    SelfRotated(env, s, id, now, c);
    StepIssueRedeemed(env, s, id, now, c);
  }

  lemma OtherKeepsSerial(env: Env, s: Hub, id: nat, now: int, c: Choice, q: Phase)
    requires Enabled(s, Advance(id, now, c)) && Serial(s, Advance(id, now, c)) && RequestSerial(s, q)
    requires Extends(s.tables, Apply(env, s, Advance(id, now, c)).tables)
    requires !(InToken(s.reqs[id]) && InToken(q))
    ensures RequestSerial(Apply(env, s, Advance(id, now, c)), q)
  {
    OtherRoom(env, s, id, now, c, q);
    StepRotated(env, s, id, now, c, q);
    if q.Issue? || q.IssueRefresh? { RedeemedPersists(env, s, Advance(id, now, c), q.grant); }
  }

  lemma AdvanceKeepsRequestsSerial(env: Env, s: Hub, id: nat, now: int, c: Choice, i: nat)
    requires SerialInv(s) && Enabled(s, Advance(id, now, c)) && Serial(s, Advance(id, now, c))
    ensures var s' := Apply(env, s, Advance(id, now, c)); i in s'.reqs ==> RequestSerial(s', s'.reqs[i])
  {
    if i == id {
      SelfKeepsSerial(env, s, id, now, c);
    } else if i in s.reqs {
      assert RequestSerial(s, s.reqs[i]);
      ApplyKeepsInv(env, s, Advance(id, now, c));
      OtherKeepsSerial(env, s, id, now, c, s.reqs[i]);
    }
  }

  lemma AdvanceKeepsRefreshApart(env: Env, s: Hub, id: nat, now: int, c: Choice, i: nat, j: nat)
    requires SerialInv(s) && Enabled(s, Advance(id, now, c)) && i in s.reqs && j in s.reqs && i != j
    ensures var s' := Apply(env, s, Advance(id, now, c)); RefreshApart(s'.reqs[i], s'.reqs[j])
  {
    assert RequestSerial(s, s.reqs[i]) && RequestSerial(s, s.reqs[j]);
    assert RefreshApart(s.reqs[i], s.reqs[j]) && RefreshApart(s.reqs[j], s.reqs[i]);
    if i == id {
      StepRefreshApart(env, s, s.reqs[i], now, c, s.reqs[j]);
    } else if j == id {
      StepRefreshApart(env, s, s.reqs[j], now, c, s.reqs[i]);
      var f := StepEffect(env, s, s.reqs[j], now, c).phase;
      assert forall h :: HoldsRefresh(f, h) ==> !HoldsRefresh(s.reqs[i], h);
    }
  }

  lemma AdvanceKeepsTables(env: Env, s: Hub, id: nat, now: int, c: Choice)
    requires SerialInv(s) && Enabled(s, Advance(id, now, c)) && Serial(s, Advance(id, now, c))
    ensures var s' := Apply(env, s, Advance(id, now, c));
            Inv(s') && OneAtATime(s') && PairsUnique(s'.tables) && TokensRedeemed(s')
  {
    assert RequestSerial(s, s.reqs[id]);
    ApplyKeepsInv(env, s, Advance(id, now, c));
    StepPairs(env, s, id, now, c);
    StepTokensRedeemed(env, s, id, now, c);
    StepOneAtATime(env, s, id, now, c);
  }

  lemma StepOneAtATime(env: Env, s: Hub, id: nat, now: int, c: Choice)
    requires Enabled(s, Advance(id, now, c)) && OneAtATime(s)
    ensures OneAtATime(Apply(env, s, Advance(id, now, c)))
  {
    assert InToken(StepEffect(env, s, s.reqs[id], now, c).phase) ==> InToken(s.reqs[id]);
  }

  lemma AdvanceKeepsSerialInv(env: Env, s: Hub, id: nat, now: int, c: Choice)
    requires SerialInv(s) && Enabled(s, Advance(id, now, c)) && Serial(s, Advance(id, now, c))
    ensures SerialInv(Apply(env, s, Advance(id, now, c)))
  {
    var s' := Apply(env, s, Advance(id, now, c));
    AdvanceKeepsTables(env, s, id, now, c);
    forall i | i in s'.reqs ensures RequestSerial(s', s'.reqs[i]) {
      AdvanceKeepsRequestsSerial(env, s, id, now, c, i);
    }
    forall i, j | i in s'.reqs && j in s'.reqs && i != j ensures RefreshApart(s'.reqs[i], s'.reqs[j]) {
      AdvanceKeepsRefreshApart(env, s, id, now, c, i, j);
    }
  }

  lemma QuietKeepsRequestSerial(env: Env, s: Hub, e: Event, q: Phase)
    requires Enabled(s, e) && !e.Advance? && RequestSerial(s, q)
    requires Extends(s.tables, Apply(env, s, e).tables)
    ensures RequestSerial(Apply(env, s, e), q)
  {
    if q.Issue? || q.IssueRefresh? { RedeemedPersists(env, s, e, q.grant); }
  }

  lemma QuietKeepsTokensRedeemed(env: Env, s: Hub, e: Event)
    requires Enabled(s, e) && !e.Advance? && TokensRedeemed(s)
    requires Extends(s.tables, Apply(env, s, e).tables)
    ensures TokensRedeemed(Apply(env, s, e))
  {
    forall h | h in s.tables.tokens ensures Redeemed(Apply(env, s, e), s.tables.tokens[h].grant) {
      RedeemedPersists(env, s, e, s.tables.tokens[h].grant);
    }
  }

  lemma QuietKeepsApartSerial(env: Env, s: Hub, e: Event)
    requires Enabled(s, e) && !e.Advance? && Serial(s, e) && OneAtATime(s)
    requires forall i, j :: i in s.reqs && j in s.reqs && i != j ==> RefreshApart(s.reqs[i], s.reqs[j])
    ensures OneAtATime(Apply(env, s, e))
    ensures var r := Apply(env, s, e).reqs;
            forall i, j :: i in r && j in r && i != j ==> RefreshApart(r[i], r[j])
  {
  }

  lemma QuietKeepsSerialInv(env: Env, s: Hub, e: Event)
    requires SerialInv(s) && Enabled(s, e) && Serial(s, e) && !e.Advance?
    ensures SerialInv(Apply(env, s, e))
  {
    var s' := Apply(env, s, e);
    ApplyKeepsInv(env, s, e);
    QuietKeepsTokensRedeemed(env, s, e);
    QuietKeepsApartSerial(env, s, e);
    forall i | i in s'.reqs ensures RequestSerial(s', s'.reqs[i]) {
      if i in s.reqs { QuietKeepsRequestSerial(env, s, e, s.reqs[i]); }
    }
  }

  lemma {:induction false} SerialRunKeepsInv(env: Env, s: Hub, es: seq<Event>)
    requires SerialInv(s) && IsSerialRun(env, s, es) && IsRun(env, s, es)
    ensures SerialInv(After(env, s, es))
    decreases |es|
  {
    if es != [] {
      match es[0] {
        case Advance(id, now, c) => AdvanceKeepsSerialInv(env, s, id, now, c);
        case _ => QuietKeepsSerialInv(env, s, es[0]);
      }
      SerialRunKeepsInv(env, Apply(env, s, es[0]), es[1..]);
    }
  }

  // ------------------------------------------------------------- main results

  /** With token requests one at a time, a grant has at most one live access
      token and at most one live refresh token. */
  lemma OneLivePair(env: Env, s0: Hub, es: seq<Event>, h1: string, h2: string)
    requires Initial(s0) && IsSerialRun(env, s0, es)
    ensures IsRun(env, s0, es)
    ensures var t := After(env, s0, es).tables;
            Live(t, h1) && Live(t, h2) && SamePlace(t.tokens[h1], t.tokens[h2]) ==> h1 == h2
  {
    SerialRunIsRun(env, s0, es);
    SerialRunKeepsInv(env, s0, es);
  }

  /** A refresh token never yields a second pair. */
  lemma RefreshRedeemedOnce(env: Env, s0: Hub, es: seq<Event>, h: string, i: nat, j: nat)
    requires Initial(s0) && IsSerialRun(env, s0, es)
    ensures IsRun(env, s0, es)
    ensures var s := After(env, s0, es);
            i in s.reqs && j in s.reqs && IssuedFromRefresh(s.reqs[i], h) && IssuedFromRefresh(s.reqs[j], h) ==> i == j
  {
    SerialRunIsRun(env, s0, es);
    SerialRunKeepsInv(env, s0, es);
    var s := After(env, s0, es);
    if i in s.reqs && j in s.reqs && i != j {
      assert RefreshApart(s.reqs[i], s.reqs[j]);
      assert HoldsRefresh(s.reqs[i], h) ==> !HoldsRefresh(s.reqs[j], h);
    }
  }
}

/** Concrete runs from the empty hub: overlapping refreshes of one token both
    succeed, a touch that lands late revives a rotated token, presenting a rotated
    refresh token leaves the pair issued from it alive, and a stranger's refused
    revocation ends the tokens of a grant. */
module OAuthRaces {
  import opened OAuthStore
  import opened OAuthProtocol
  import opened OAuthSerial
  import OAuthSafety

  lemma {:induction false} RunAppend(env: Env, s: Hub, es: seq<Event>, e: Event)
    requires IsRun(env, s, es) && Enabled(After(env, s, es), e)
    ensures IsRun(env, s, es + [e]) && After(env, s, es + [e]) == Apply(env, After(env, s, es), e)
    decreases |es|
  {
    if es == [] {
      assert es + [e] == [e];
      assert IsRun(env, Apply(env, s, e), [e][1..]);
    } else {
      RunAppend(env, Apply(env, s, es[0]), es[1..], e);
      assert (es + [e])[1..] == es[1..] + [e];
    }
  }

  /** What a run refrains from: touches, or token requests that overlap. */
  datatype Discipline = Discipline(touches: bool, overlaps: bool)

  ghost predicate Obeys(s: Hub, e: Event, d: Discipline) {
    e.Arrive? ==>
      && (e.start.TStart? ==> d.touches)
      && (InToken(e.start) && !d.overlaps ==> forall i :: i in s.reqs ==> !InToken(s.reqs[i]))
  }

  ghost predicate ObeyingRun(env: Env, s: Hub, es: seq<Event>, d: Discipline)
    decreases |es|
  {
    es != [] ==> Enabled(s, es[0]) && Obeys(s, es[0], d) && ObeyingRun(env, Apply(env, s, es[0]), es[1..], d)
  }

  lemma {:induction false} ObeyingAppend(env: Env, s: Hub, es: seq<Event>, e: Event, d: Discipline)
    requires ObeyingRun(env, s, es, d) && IsRun(env, s, es)
    requires Enabled(After(env, s, es), e) && Obeys(After(env, s, es), e, d)
    ensures ObeyingRun(env, s, es + [e], d)
    decreases |es|
  {
    if es == [] {
      assert es + [e] == [e];
      assert ObeyingRun(env, Apply(env, s, e), [e][1..], d);
    } else {
      ObeyingAppend(env, Apply(env, s, es[0]), es[1..], e, d);
      assert (es + [e])[1..] == es[1..] + [e];
    }
  }

  const ORIGIN: Hub := Hub(Tables(map[], map[], map[], map[]), map[], 1, map[])

  /** `s` is what the run `es` from the empty hub ends in. */
  ghost predicate Ran(env: Env, es: seq<Event>, d: Discipline, s: Hub) {
    IsRun(env, ORIGIN, es) && ObeyingRun(env, ORIGIN, es, d) && After(env, ORIGIN, es) == s
  }

  lemma Extend(env: Env, es: seq<Event>, d: Discipline, s: Hub, e: Event)
    requires Ran(env, es, d, s) && Enabled(s, e) && Obeys(s, e, d)
    ensures Ran(env, es + [e], d, Apply(env, s, e))
  {
    RunAppend(env, ORIGIN, es, e);
    ObeyingAppend(env, ORIGIN, es, e, d);
  }

  ghost predicate Reachable(env: Env, d: Discipline, s: Hub) {
    exists es :: Ran(env, es, d, s)
  }

  const GOOD: Choice := Choice(true, "", {}, true)

  const B: Binding := Binding("client", "user", "resource", "offline_access", "project")

  function Verifier(): string {
    seq(43, _ => 'v')
  }

  /** Environments in which the runs below can happen at all. */
  predicate Offline(env: Env) {
    env.hasOffline("offline_access") && env.s256(Verifier()) != ""
  }

  function Form(): ExchangeForm {
    ExchangeForm("c", "client", "uri", "resource", Verifier())
  }

  function Code(env: Env): AuthCode {
    AuthCode("g", B, "uri", env.s256(Verifier()), 1 + AUTH_CODE_TTL, false)
  }

  /** One request moves; everything else about the state is spelled out. */
  lemma Move(env: Env, d: Discipline, s: Hub, id: nat, c: Choice) returns (s': Hub)
    requires Reachable(env, d, s) && Enabled(s, Advance(id, s.clock, c))
    ensures Reachable(env, d, s') && s'.clock == s.clock
    ensures var f := StepEffect(env, s, s.reqs[id], s.clock, c);
            s'.tables == Perform(s.tables, f.write) && s'.claims == f.claims && s'.reqs == s.reqs[id := f.phase]
  {
    var es :| Ran(env, es, d, s);
    Extend(env, es, d, s, Advance(id, s.clock, c));
    s' := Apply(env, s, Advance(id, s.clock, c));
  }

  lemma Begin(env: Env, d: Discipline, s: Hub, id: nat, start: Phase) returns (s': Hub)
    requires Reachable(env, d, s) && id !in s.reqs && IsStart(start) && Obeys(s, Arrive(id, s.clock, start), d)
    ensures Reachable(env, d, s') && s'.clock == s.clock
    ensures s'.tables == s.tables && s'.claims == s.claims && s'.reqs == s.reqs[id := start]
  {
    var es :| Ran(env, es, d, s);
    Extend(env, es, d, s, Arrive(id, s.clock, start));
    s' := Apply(env, s, Arrive(id, s.clock, start));
  }

  // ----------------------------------------------- a consent and its first pair

  lemma Granted(env: Env, d: Discipline) returns (s: Hub)
    ensures Reachable(env, d, s) && s.clock == 1 && s.claims == map[]
    ensures s.reqs == map[0 := CGranted("g", B, "uri", env.s256(Verifier()), 1)]
    ensures s.tables.codes == map[] && s.tables.tokens == map[]
  {
    assert Ran(env, [], d, ORIGIN);
    var s1 := Begin(env, d, ORIGIN, 0, CStart(B, "uri", env.s256(Verifier())));
    s := Move(env, d, s1, 0, GOOD.(drawn := "g"));
  }

  lemma Consent(env: Env, d: Discipline) returns (s: Hub)
    ensures Reachable(env, d, s) && s.clock == 1 && s.claims == map[] && s.reqs == map[0 := Finished(true)]
    ensures s.tables.codes == map["c" := Code(env)] && s.tables.tokens == map[]
  {
    var s0 := Granted(env, d);
    s := Move(env, d, s0, 0, GOOD.(drawn := "c"));
  }

  lemma CodeRead(env: Env, d: Discipline) returns (s: Hub)
    ensures Reachable(env, d, s) && s.clock == 1 && s.claims == map[]
    ensures s.reqs == map[0 := Finished(true), 1 := XRead(Form(), Code(env))]
    ensures s.tables.codes == map["c" := Code(env)] && s.tables.tokens == map[]
  {
    var s0 := Consent(env, d);
    var s1 := Begin(env, d, s0, 1, XStart(Form()));
    s := Move(env, d, s1, 1, GOOD);
  }

  lemma Claimed(env: Env, d: Discipline) returns (s: Hub)
    ensures Reachable(env, d, s) && s.clock == 1
    ensures s.reqs == map[0 := Finished(true), 1 := XClaimed(Form(), Code(env), 1)]
    ensures s.tables.codes == map["c" := Code(env)] && s.tables.tokens == map[]
  {
    var s0 := CodeRead(env, d);
    s := Move(env, d, s0, 1, GOOD);
  }

  lemma Checked(env: Env, d: Discipline) returns (s: Hub)
    requires Offline(env)
    ensures Reachable(env, d, s) && s.clock == 1
    ensures s.reqs == map[0 := Finished(true), 1 := XVerified(Form(), Code(env), 1)]
    ensures s.tables.codes == map["c" := Code(env)] && s.tables.tokens == map[]
  {
    var s0 := Claimed(env, d);
    s := Move(env, d, s0, 1, GOOD);
  }

  lemma CodeSpent(env: Env, d: Discipline) returns (s: Hub)
    requires Offline(env)
    ensures Reachable(env, d, s) && s.clock == 1 && s.tables.tokens == map[]
    ensures s.reqs == map[0 := Finished(true), 1 := Issue(FromCode("c", 1), "g", B)]
  {
    var s0 := Checked(env, d);
    s := Move(env, d, s0, 1, GOOD);
  }

  function Access(): Token {
    Token(AccessKind, "g", B, 1 + ACCESS_TOKEN_TTL, false)
  }

  function Refresh(): Token {
    Token(RefreshKind, "g", B, 1 + REFRESH_TOKEN_TTL, false)
  }

  /** The first pair: access token "a", refresh token "r". */
  const FIRST: map<string, Token> := map["a" := Access(), "r" := Refresh()]

  /** The same pair once rotated away. */
  const ROTATED: map<string, Token> := map["a" := Access().(revoked := true), "r" := Refresh().(revoked := true)]

  /** The requests behind the first pair: the consent and the exchange. */
  const DONE: map<nat, Phase> := map[0 := Finished(true), 1 := Served(FromCode("c", 1), true)]

  lemma FirstAccessIssued(env: Env, d: Discipline) returns (s: Hub)
    requires Offline(env)
    ensures Reachable(env, d, s) && s.clock == 1 && s.tables.tokens == map["a" := Access()]
    ensures s.reqs == map[0 := Finished(true), 1 := IssueRefresh(FromCode("c", 1), "g", B, 1)]
  {
    var s0 := CodeSpent(env, d);
    s := Move(env, d, s0, 1, GOOD.(drawn := "a"));
  }

  lemma FirstPair(env: Env, d: Discipline) returns (s: Hub)
    requires Offline(env)
    ensures Reachable(env, d, s) && s.clock == 1 && s.reqs == DONE && s.tables.tokens == FIRST
  {
    var s0 := FirstAccessIssued(env, d);
    assert "r" !in s0.tables.tokens by { assert "a"[0] != "r"[0]; }
    s := Move(env, d, s0, 1, GOOD.(drawn := "r"));
  }

  // ------------------------------------------------------- steps of a refresh

  lemma ReadRefresh(env: Env, d: Discipline, s: Hub, id: nat) returns (s': Hub)
    requires Reachable(env, d, s) && s.clock == 1 && id !in s.reqs && s.tables.tokens == FIRST
    requires Obeys(s, Arrive(id, 1, RStart("r", "client")), d)
    ensures Reachable(env, d, s') && s'.clock == 1 && s'.tables == s.tables
    ensures s'.reqs == s.reqs[id := RRead("r", "client", Refresh())]
  {
    var s1 := Begin(env, d, s, id, RStart("r", "client"));
    s' := Move(env, d, s1, id, GOOD);
  }

  /** A refresh of "r" by request `id`, up to the point where it may rotate. */
  lemma StartRefresh(env: Env, d: Discipline, s: Hub, id: nat) returns (s': Hub)
    requires Reachable(env, d, s) && s.clock == 1 && id !in s.reqs && s.tables.tokens == FIRST
    requires Obeys(s, Arrive(id, 1, RStart("r", "client")), d)
    ensures Reachable(env, d, s') && s'.clock == 1 && s'.tables == s.tables
    ensures s'.reqs == s.reqs[id := RVerified("r", Refresh())]
  {
    var s1 := ReadRefresh(env, d, s, id);
    s' := Move(env, d, s1, id, GOOD);
  }

  lemma Rotate(env: Env, d: Discipline, s: Hub, id: nat) returns (s': Hub)
    requires Reachable(env, d, s) && s.clock == 1 && id in s.reqs && s.reqs[id] == RVerified("r", Refresh())
    requires s.tables.tokens == FIRST || s.tables.tokens == ROTATED
    ensures Reachable(env, d, s') && s'.clock == 1 && s'.tables.tokens == ROTATED
    ensures s'.reqs == s.reqs[id := Issue(FromRefresh("r"), "g", B)]
  {
    s' := Move(env, d, s, id, GOOD);
  }

  lemma IssueAccess(env: Env, d: Discipline, s: Hub, id: nat, h: string) returns (s': Hub)
    requires Reachable(env, d, s) && s.clock == 1 && id in s.reqs && s.reqs[id] == Issue(FromRefresh("r"), "g", B)
    requires h !in s.tables.tokens && Offline(env)
    ensures Reachable(env, d, s') && s'.clock == 1 && s'.tables.tokens == s.tables.tokens[h := Access()]
    ensures s'.reqs == s.reqs[id := IssueRefresh(FromRefresh("r"), "g", B, 1)]
  {
    s' := Move(env, d, s, id, GOOD.(drawn := h));
  }

  lemma IssueRefreshToken(env: Env, d: Discipline, s: Hub, id: nat, h: string) returns (s': Hub)
    requires Reachable(env, d, s) && s.clock == 1 && id in s.reqs
             && s.reqs[id] == IssueRefresh(FromRefresh("r"), "g", B, 1)
    requires h !in s.tables.tokens
    ensures Reachable(env, d, s') && s'.clock == 1 && s'.tables.tokens == s.tables.tokens[h := Refresh()]
    ensures s'.reqs == s.reqs[id := Served(FromRefresh("r"), true)]
  {
    s' := Move(env, d, s, id, GOOD.(drawn := h));
  }

  /** Every pair of hashes used below is a pair of different strings. */
  lemma Names()
    ensures "a" != "r" && "a2" != "r2" && "a3" != "r3" && "a2" != "a3" && "r2" != "r3" && "a2" != "r3" && "r2" != "a3"
    ensures "a2" != "a" && "r2" != "a" && "a3" != "a" && "r3" != "a"
    ensures "a2" != "r" && "r2" != "r" && "a3" != "r" && "r3" != "r"
  {
    assert "a"[0] != "r"[0] && "a2"[0] != "r2"[0] && "a3"[0] != "r3"[0] && "a2"[1] != "a3"[1] && "r2"[1] != "r3"[1];
    assert "a2"[0] != "r3"[0] && "r2"[0] != "a3"[0];
    assert |"a2"| == |"r2"| == |"a3"| == |"r3"| == 2 && |"a"| == |"r"| == 1;
  }

  // --------------------------------------------------- two refreshes that overlap

  const OVERLAPPING: Discipline := Discipline(false, true)

  lemma BothReady(env: Env) returns (s: Hub)
    requires Offline(env)
    ensures Reachable(env, OVERLAPPING, s) && s.clock == 1 && s.tables.tokens == FIRST
    ensures s.reqs == DONE[2 := RVerified("r", Refresh())][3 := RVerified("r", Refresh())]
  {
    var s1 := FirstPair(env, OVERLAPPING);
    var s2 := StartRefresh(env, OVERLAPPING, s1, 2);
    s := StartRefresh(env, OVERLAPPING, s2, 3);
  }

  lemma BothRotate(env: Env) returns (s: Hub)
    requires Offline(env)
    ensures Reachable(env, OVERLAPPING, s) && s.clock == 1 && s.tables.tokens == ROTATED
    ensures s.reqs == DONE[2 := Issue(FromRefresh("r"), "g", B)][3 := Issue(FromRefresh("r"), "g", B)]
  {
    var s1 := BothReady(env);
    var s2 := Rotate(env, OVERLAPPING, s1, 2);
    s := Rotate(env, OVERLAPPING, s2, 3);
  }

  lemma FirstAccessAgain(env: Env) returns (s: Hub)
    requires Offline(env)
    ensures Reachable(env, OVERLAPPING, s) && s.clock == 1 && s.tables.tokens == ROTATED["a2" := Access()]
    ensures s.reqs == DONE[2 := IssueRefresh(FromRefresh("r"), "g", B, 1)][3 := Issue(FromRefresh("r"), "g", B)]
  {
    Names();
    var s1 := BothRotate(env);
    s := IssueAccess(env, OVERLAPPING, s1, 2, "a2");
  }

  lemma FirstServed(env: Env) returns (s: Hub)
    requires Offline(env)
    ensures Reachable(env, OVERLAPPING, s) && s.clock == 1
    ensures s.tables.tokens == ROTATED["a2" := Access()]["r2" := Refresh()]
    ensures s.reqs == DONE[2 := Served(FromRefresh("r"), true)][3 := Issue(FromRefresh("r"), "g", B)]
  {
    Names();
    var s1 := FirstAccessAgain(env);
    s := IssueRefreshToken(env, OVERLAPPING, s1, 2, "r2");
  }

  lemma BothServed(env: Env) returns (s: Hub)
    requires Offline(env)
    ensures Reachable(env, OVERLAPPING, s)
    ensures s.tables.tokens == ROTATED["a2" := Access()]["r2" := Refresh()]["a3" := Access()]["r3" := Refresh()]
    ensures s.reqs == DONE[2 := Served(FromRefresh("r"), true)][3 := Served(FromRefresh("r"), true)]
  {
    Names();
    var s1 := FirstServed(env);
    var s2 := IssueAccess(env, OVERLAPPING, s1, 3, "a3");
    s := IssueRefreshToken(env, OVERLAPPING, s2, 3, "r3");
  }

  /** A run without a single touch in which two requests both redeem the refresh
      token "r" successfully, and leave two live pairs. */
  lemma OverlappingRefreshesBothSucceed(env: Env) returns (es: seq<Event>)
    requires Offline(env)
    ensures IsRun(env, ORIGIN, es) && Initial(ORIGIN)
    ensures forall e :: e in es ==> !(e.Arrive? && e.start.TStart?)
    ensures var s := After(env, ORIGIN, es);
            && 2 in s.reqs && 3 in s.reqs
            && s.reqs[2] == Served(FromRefresh("r"), true) && s.reqs[3] == Served(FromRefresh("r"), true)
            && Live(s.tables, "a2") && Live(s.tables, "a3") && SamePlace(s.tables.tokens["a2"], s.tables.tokens["a3"])
            && Live(s.tables, "r2") && Live(s.tables, "r3") && SamePlace(s.tables.tokens["r2"], s.tables.tokens["r3"])
            && "a2" != "a3" && "r2" != "r3"
  {
    Names();
    var s := BothServed(env);
    es :| Ran(env, es, OVERLAPPING, s);
    NoTouches(env, ORIGIN, es, OVERLAPPING);
  }

  lemma {:induction false} NoTouches(env: Env, s: Hub, es: seq<Event>, d: Discipline)
    requires ObeyingRun(env, s, es, d) && !d.touches
    ensures forall e :: e in es ==> !(e.Arrive? && e.start.TStart?)
    decreases |es|
  {
    if es != [] { NoTouches(env, Apply(env, s, es[0]), es[1..], d); }
  }

  // -------------------------------------------------------- a touch that lands late

  const TOUCHING: Discipline := Discipline(true, false)

  lemma TouchBegins(env: Env) returns (s: Hub)
    requires Offline(env)
    ensures Reachable(env, TOUCHING, s) && s.clock == 1 && s.tables.tokens == FIRST && s.reqs == DONE[2 := TStart("a")]
  {
    var s1 := FirstPair(env, TOUCHING);
    s := Begin(env, TOUCHING, s1, 2, TStart("a"));
  }

  lemma TouchHalfway(env: Env) returns (s: Hub)
    requires Offline(env)
    ensures Reachable(env, TOUCHING, s) && s.clock == 1 && s.tables.tokens == FIRST
    ensures s.reqs == DONE[2 := TRead("a", Access())]
  {
    var s1 := TouchBegins(env);
    s := Move(env, TOUCHING, s1, 2, GOOD);
  }

  lemma RotatedUnderTouch(env: Env) returns (s: Hub)
    requires Offline(env)
    ensures Reachable(env, TOUCHING, s) && s.clock == 1 && s.tables.tokens == ROTATED
    ensures s.reqs == DONE[2 := TRead("a", Access())][3 := Issue(FromRefresh("r"), "g", B)]
  {
    var s1 := TouchHalfway(env);
    var s2 := StartRefresh(env, TOUCHING, s1, 3);
    s := Rotate(env, TOUCHING, s2, 3);
  }

  lemma IssuedUnderTouch(env: Env) returns (s: Hub)
    requires Offline(env)
    ensures Reachable(env, TOUCHING, s) && s.clock == 1 && s.tables.tokens == ROTATED["a2" := Access()]
    ensures s.reqs == DONE[2 := TRead("a", Access())][3 := IssueRefresh(FromRefresh("r"), "g", B, 1)]
  {
    Names();
    var s1 := RotatedUnderTouch(env);
    s := IssueAccess(env, TOUCHING, s1, 3, "a2");
  }

  lemma TouchLands(env: Env, s: Hub, e: Event)
    requires Enabled(s, e) && e == Advance(2, 1, GOOD) && s.reqs[2] == TRead("a", Access())
    requires s.tables.tokens == ROTATED["a2" := Access()] && "a2" != "a" && "a2" != "r" && "a" != "r"
    ensures Apply(env, s, e).tables.tokens == ROTATED["a2" := Access()]["a" := Access()]
  {
    assert Access().(revoked := true).(revoked := false) == Access();
    assert StepEffect(env, s, s.reqs[2], 1, GOOD).write == Touch("a");
  }

  /** A run in which token requests never overlap, and its last event: a touch
      of "a" that read the token before the rotation writes it back after. The
      rotated token is live again, beside the one that replaced it. */
  lemma LateTouchRevives(env: Env) returns (es: seq<Event>, e: Event)
    requires Offline(env)
    ensures IsRun(env, ORIGIN, es) && Initial(ORIGIN) && ObeyingRun(env, ORIGIN, es + [e], TOUCHING)
    ensures var s := After(env, ORIGIN, es);
            && Enabled(s, e) && e.Advance? && s.reqs[e.id] == TRead("a", Access())
            && "a" in s.tables.tokens && s.tables.tokens["a"].revoked && Live(s.tables, "a2")
            && var after := Apply(env, s, e).tables;
               Live(after, "a") && Live(after, "a2") && SamePlace(after.tokens["a"], after.tokens["a2"]) && "a" != "a2"
  {
    Names();
    var s := IssuedUnderTouch(env);
    es :| Ran(env, es, TOUCHING, s);
    e := Advance(2, 1, GOOD);
    Extend(env, es, TOUCHING, s, e);
    TouchLands(env, s, e);
  }

  // ------------------------------------------------- a rotated token presented

  const SERIAL: Discipline := Discipline(false, false)

  lemma RotatedOnce(env: Env) returns (s: Hub)
    requires Offline(env)
    ensures Reachable(env, SERIAL, s) && s.clock == 1 && s.tables.tokens == ROTATED
    ensures s.reqs == DONE[2 := Issue(FromRefresh("r"), "g", B)]
  {
    var s1 := FirstPair(env, SERIAL);
    var s2 := StartRefresh(env, SERIAL, s1, 2);
    s := Rotate(env, SERIAL, s2, 2);
  }

  lemma SecondAccess(env: Env) returns (s: Hub)
    requires Offline(env)
    ensures Reachable(env, SERIAL, s) && s.clock == 1 && s.tables.tokens == ROTATED["a2" := Access()]
    ensures s.reqs == DONE[2 := IssueRefresh(FromRefresh("r"), "g", B, 1)]
  {
    Names();
    var s1 := RotatedOnce(env);
    s := IssueAccess(env, SERIAL, s1, 2, "a2");
  }

  lemma SecondPair(env: Env) returns (s: Hub)
    requires Offline(env)
    ensures Reachable(env, SERIAL, s) && s.clock == 1 && s.reqs == DONE[2 := Served(FromRefresh("r"), true)]
    ensures s.tables.tokens == ROTATED["a2" := Access()]["r2" := Refresh()]
  {
    Names();
    var s1 := SecondAccess(env);
    s := IssueRefreshToken(env, SERIAL, s1, 2, "r2");
  }

  lemma OldTokenRefused(env: Env, s: Hub, e: Event)
    requires Enabled(s, e) && e == Advance(3, 1, GOOD) && s.reqs[3] == RStart("r", "client")
    requires "r" in s.tables.tokens && s.tables.tokens["r"].revoked
    ensures Apply(env, s, e).tables == s.tables && Apply(env, s, e).reqs == s.reqs[3 := Finished(false)]
  {
  }

  lemma RotatedPresented(env: Env) returns (s: Hub)
    requires Offline(env)
    ensures Reachable(env, SERIAL, s) && s.clock == 1
    ensures s.reqs == DONE[2 := Served(FromRefresh("r"), true)][3 := RStart("r", "client")]
    ensures s.tables.tokens == ROTATED["a2" := Access()]["r2" := Refresh()]
  {
    var s1 := SecondPair(env);
    s := Begin(env, SERIAL, s1, 3, RStart("r", "client"));
  }

  /** A run, one token request after the other, and its last event: a pair is
      issued and rotated, then the old refresh token is presented again. It is
      refused, and the second pair stays alive. */
  lemma RotatedTokenSparesFamily(env: Env) returns (es: seq<Event>, e: Event)
    requires Offline(env)
    ensures IsRun(env, ORIGIN, es) && Initial(ORIGIN) && ObeyingRun(env, ORIGIN, es + [e], SERIAL)
    ensures var s := After(env, ORIGIN, es);
            && Enabled(s, e) && e.Advance? && s.reqs[e.id] == RStart("r", "client") && e.choice.ok
            && "r" in s.tables.tokens && s.tables.tokens["r"].revoked
            && 2 in s.reqs && s.reqs[2] == Served(FromRefresh("r"), true)
            && var after := Apply(env, s, e);
               && e.id in after.reqs && after.reqs[e.id] == Finished(false)
               && Live(after.tables, "a2") && after.tables.tokens["a2"] == Access()
               && Live(after.tables, "r2") && after.tables.tokens["r2"] == Refresh()
  {
    Names();
    var s := RotatedPresented(env);
    es :| Ran(env, es, SERIAL, s);
    e := Advance(3, 1, GOOD);
    Extend(env, es, SERIAL, s, e);
    OldTokenRefused(env, s, e);
  }

  // ------------------------------------------------ a stranger revokes a grant

  lemma StrangerBegins(env: Env) returns (s: Hub)
    requires Offline(env)
    ensures Reachable(env, SERIAL, s) && s.clock == 1 && s.tables.tokens == FIRST
    ensures s.reqs == DONE[2 := GStart("stranger", "g")]
  {
    var s1 := FirstPair(env, SERIAL);
    s := Begin(env, SERIAL, s1, 2, GStart("stranger", "g"));
  }

  /** The grant behind a stored token is its user's. */
  lemma GrantIsOwned(env: Env, s: Hub)
    requires Reachable(env, SERIAL, s) && s.tables.tokens == FIRST
    ensures "g" in s.tables.grants && s.tables.grants["g"].binding == B
  {
    var es :| Ran(env, es, SERIAL, s);
    OAuthSafety.InvHolds(env, ORIGIN, es);
    assert Bound(s.tables, s.tables.tokens["a"].grant, s.tables.tokens["a"].binding);
  }

  lemma BothRevoked(t: Tables)
    requires t.tokens == FIRST
    ensures Perform(t, RevokeTokens("g", true, {})) == t.(tokens := ROTATED)
  {
  }

  lemma StrangerActs(env: Env, s: Hub, e: Event)
    requires Enabled(s, e) && e == Advance(2, 1, GOOD) && s.reqs[2] == GStart("stranger", "g")
    ensures var next := Apply(env, s, e);
            && next.tables == Perform(s.tables, RevokeTokens("g", true, {})) && next.clock == 1
            && next.reqs == s.reqs[2 := GTokensGone("stranger", "g")]
  {
  }

  lemma StrangerLeaves(env: Env, s: Hub, e: Event)
    requires Enabled(s, e) && e == Advance(2, 1, GOOD) && s.reqs[2] == GTokensGone("stranger", "g")
    requires "g" in s.tables.grants && s.tables.grants["g"].binding == B
    ensures Apply(env, s, e).tables == s.tables && Apply(env, s, e).reqs == s.reqs[2 := Finished(false)]
  {
    assert "stranger"[0] != "user"[0];
  }

  lemma StrangerActsTwice(env: Env, s: Hub, e: Event)
    requires Enabled(s, e) && e == Advance(2, 1, GOOD) && s.reqs[2] == GStart("stranger", "g") && s.clock == 1
    requires s.tables.tokens == FIRST && "g" in s.tables.grants && s.tables.grants["g"].binding == B
    ensures Enabled(Apply(env, s, e), e)
    ensures var end := Apply(env, Apply(env, s, e), e);
            end.tables == s.tables.(tokens := ROTATED) && end.reqs == s.reqs[2 := Finished(false)]
  {
    BothRevoked(s.tables);
    StrangerActs(env, s, e);
    StrangerLeaves(env, Apply(env, s, e), e);
  }

  lemma RunTwice(env: Env, es: seq<Event>, s: Hub, e: Event)
    requires IsRun(env, ORIGIN, es) && After(env, ORIGIN, es) == s && Enabled(s, e) && Enabled(Apply(env, s, e), e)
    ensures IsRun(env, ORIGIN, es + [e] + [e]) && After(env, ORIGIN, es + [e] + [e]) == Apply(env, Apply(env, s, e), e)
  {
    RunAppend(env, ORIGIN, es, e);
    RunAppend(env, ORIGIN, es + [e], e);
  }

  /** A run from the empty hub: a person's consent has given two live tokens, and
      a stranger asks for that grant to be revoked. After the request's two steps
      it is refused, the grant is as it was, and both tokens are gone. */
  lemma StrangerEndsTokens(env: Env) returns (es: seq<Event>, e: Event)
    requires Offline(env)
    ensures IsRun(env, ORIGIN, es) && IsRun(env, ORIGIN, es + [e] + [e])
    ensures var s, end := After(env, ORIGIN, es), After(env, ORIGIN, es + [e] + [e]);
            && e.Advance? && e.id in s.reqs && s.reqs[e.id] == GStart("stranger", "g")
            && "g" in s.tables.grants && s.tables.grants["g"].binding.user == "user"
            && s.tables.tokens == FIRST && end.tables == s.tables.(tokens := ROTATED)
            && end.reqs == s.reqs[e.id := Finished(false)]
  {
    var s := StrangerBegins(env);
    GrantIsOwned(env, s);
    es :| Ran(env, es, SERIAL, s);
    e := Advance(2, 1, GOOD);
    StrangerActsTwice(env, s, e);
    RunTwice(env, es, s, e);
  }
}

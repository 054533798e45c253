/** Exactly when a grant keeps at most one live access and one live refresh
    token: as long as every token row is stored, or touched back, into a free
    place. The serial discipline is one way to see to that. */
module OAuthRoom {
  import opened OAuthStore
  import opened OAuthProtocol
  import opened OAuthSafety
  import opened OAuthSerial

  /** No live token but `h` itself is of this grant and kind. */
  ghost predicate Room(t: Tables, grant: string, kind: Kind, h: string) {
    forall k :: Live(t, k) && t.tokens[k].grant == grant && t.tokens[k].kind == kind ==> k == h
  }

  /** The guard of an event, told from the state it happens in: a pair is stored
      where none is live, and a touch lands on a token that is still live or
      whose place is free. */
  ghost predicate Roomy(s: Hub, e: Event) {
    e.Advance? && e.id in s.reqs && e.choice.ok ==>
      match s.reqs[e.id]
      case Issue(_, grant, _) => Room(s.tables, grant, AccessKind, e.choice.drawn)
      case IssueRefresh(_, grant, _, _) => Room(s.tables, grant, RefreshKind, e.choice.drawn)
      case TRead(h, tok) => Live(s.tables, h) || Room(s.tables, tok.grant, tok.kind, h)
      case _ => true
  }

  /** A row that becomes live keeps pairs unique exactly when its place is free. */
  lemma PutDecides(t: Tables, h: string, tok: Token)
    requires PairsUnique(t) && !tok.revoked && (h in t.tokens ==> SamePlace(t.tokens[h], tok))
    ensures PairsUnique(t.(tokens := t.tokens[h := tok])) <==> Room(t, tok.grant, tok.kind, h)
  {
    var next := t.(tokens := t.tokens[h := tok]);
    assert Live(next, h);
    assert forall k :: k != h ==> (Live(next, k) <==> Live(t, k));
    if PairsUnique(next) {
      forall k | Live(t, k) && t.tokens[k].grant == tok.grant && t.tokens[k].kind == tok.kind ensures k == h {
        if k != h { assert Live(next, k) && SamePlace(next.tokens[k], next.tokens[h]); }
      }
    }
  }

  /** Every other write leaves no more tokens live than before. */
  lemma OtherWritesKeep(t: Tables, w: Write)
    requires PairsUnique(t) && !w.PutToken? && !w.Touch?
    ensures PairsUnique(Perform(t, w))
  {
    var next := Perform(t, w);
    forall h1, h2 | Live(next, h1) && Live(next, h2) && SamePlace(next.tokens[h1], next.tokens[h2]) ensures h1 == h2 {
      LiveShrinks(t, w, h1);
      LiveShrinks(t, w, h2);
    }
  }

  lemma TouchDecides(t: Tables, h: string, tok: Token)
    requires PairsUnique(t) && KnownToken(t, h, tok)
    ensures PairsUnique(Perform(t, Touch(h))) <==> Live(t, h) || Room(t, tok.grant, tok.kind, h)
  {
    PutDecides(t, h, t.tokens[h].(revoked := false));
    if Live(t, h) {
      assert t.tokens[h].(revoked := false) == t.tokens[h];
      assert Perform(t, Touch(h)) == t;
    }
  }

  /** One event, exactly. */
  lemma StepUniqueIffRoomy(env: Env, s: Hub, e: Event)
    requires Inv(s) && Enabled(s, e) && PairsUnique(s.tables)
    ensures PairsUnique(Apply(env, s, e).tables) <==> Roomy(s, e)
  {
    match e {
      case Arrive(_, _, _) =>
      case SetUser(_, _, _) =>
        var next := Apply(env, s, e).tables;
        forall h1, h2 | Live(next, h1) && Live(next, h2) && SamePlace(next.tokens[h1], next.tokens[h2])
            ensures h1 == h2 {
          assert Live(s.tables, h1) && Live(s.tables, h2);
        }
      case Advance(id, now, c) => AdvanceUniqueIffRoomy(env, s, id, now, c);
    }
  }

  lemma AdvanceUniqueIffRoomy(env: Env, s: Hub, id: nat, now: int, c: Choice)
    requires Inv(s) && Enabled(s, Advance(id, now, c)) && PairsUnique(s.tables)
    ensures PairsUnique(Apply(env, s, Advance(id, now, c)).tables) <==> Roomy(s, Advance(id, now, c))
  {
    var p := s.reqs[id];
    var w := StepEffect(env, s, p, now, c).write;
    if w.PutToken? {
      PutDecides(s.tables, w.hash, w.tok);
    } else if w.Touch? {
      assert RequestOk(s, p);
      TouchDecides(s.tables, p.hash, p.tok);
    } else {
      OtherWritesKeep(s.tables, w);
    }
  }

  // --------------------------------------------------------------- whole runs

  /** Pairs are unique in every state the run passes through. */
  ghost predicate AlwaysUnique(env: Env, s: Hub, es: seq<Event>)
    requires IsRun(env, s, es)
    decreases |es|
  {
    PairsUnique(s.tables) && (es != [] ==> AlwaysUnique(env, Apply(env, s, es[0]), es[1..]))
  }

  /** Every event of the run finds the room it needs. */
  ghost predicate AlwaysRoomy(env: Env, s: Hub, es: seq<Event>)
    requires IsRun(env, s, es)
    decreases |es|
  {
    es != [] ==> Roomy(s, es[0]) && AlwaysRoomy(env, Apply(env, s, es[0]), es[1..])
  }

  lemma {:induction false} UniqueIffRoomyFrom(env: Env, s: Hub, es: seq<Event>)
    requires Inv(s) && PairsUnique(s.tables) && IsRun(env, s, es)
    ensures AlwaysUnique(env, s, es) <==> AlwaysRoomy(env, s, es)
    decreases |es|
  {
    if es != [] {
      var next := Apply(env, s, es[0]);
      StepUniqueIffRoomy(env, s, es[0]);
      ApplyKeepsInv(env, s, es[0]);
      if PairsUnique(next.tables) { UniqueIffRoomyFrom(env, next, es[1..]); }
    }
  }

  /** On every run: no grant ever has two live tokens of one kind if and only if
      every event finds room. */
  lemma OneLivePairIffRoomy(env: Env, s0: Hub, es: seq<Event>)
    requires Initial(s0) && IsRun(env, s0, es)
    ensures AlwaysUnique(env, s0, es) <==> AlwaysRoomy(env, s0, es)
  {
    UniqueIffRoomyFrom(env, s0, es);
  }

  lemma {:induction false} SerialIsUniqueFrom(env: Env, s: Hub, es: seq<Event>)
    requires SerialInv(s) && IsSerialRun(env, s, es) && IsRun(env, s, es)
    ensures AlwaysUnique(env, s, es)
    decreases |es|
  {
    if es != [] {
      SerialRunKeepsInv(env, s, es[..1]);
      assert After(env, s, es[..1]) == Apply(env, s, es[0]);
      SerialIsUniqueFrom(env, Apply(env, s, es[0]), es[1..]);
    }
  }

  /** The serial discipline makes every event roomy. */
  lemma SerialIsRoomy(env: Env, s0: Hub, es: seq<Event>)
    requires Initial(s0) && IsSerialRun(env, s0, es)
    ensures IsRun(env, s0, es) && AlwaysRoomy(env, s0, es)
  {
    SerialRunIsRun(env, s0, es);
    SerialIsUniqueFrom(env, s0, es);
    OneLivePairIffRoomy(env, s0, es);
  }
}

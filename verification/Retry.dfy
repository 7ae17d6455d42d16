/**
 A request that nothing disturbs, and what it means for a client to try again after a failure.
 The pieces are also used to build whole runs in `Counterexamples`.
 */
module Retry {
  import opened Types
  import opened Kv
  import opened Protocol
  import opened Invariant
  import opened Safety

  // ---- Pieces of undisturbed runs ----

  // Present, Lookup and Check, in one instant, reading the current row.
  function Reading(s: State, r: nat, flow: Flow, x: Uuid): State
    requires x in s.kv.tokens
  {
    With(s, r, Request(flow, x, s.now, s.now, true, s.now, s.now, None, false, false, Pending, Cleared(s.kv.tokens[x])))
  }

  function Looking(s: State, r: nat, flow: Flow, x: Uuid): State
    requires x in s.kv.tokens
  {
    With(s, r, Request(flow, x, s.now, s.now, true, s.now, s.now, None, false, false, Pending, Found(s.kv.tokens[x])))
  }

  ghost predicate CanPresent(s: State, r: nat, x: Uuid) {
    && r !in s.requests && x in s.delivered && x in s.minted && Unexpired(s.minted[x].exp, s.now)
    && x in s.kv.tokens && s.kv.tokens[x] in s.written && s.kv.tokens[x].value.id == x
  }

  lemma Looks(c: Config, s0: State, s: State, r: nat, flow: Flow, x: Uuid)
    requires Leads(c, s0, s) && CanPresent(s, r, x) && !flow.Login?
    ensures Leads(c, s0, Looking(s, r, flow, x))
  {
    LeadsOn(c, s0, s, Present(r, flow, x));
    var s1 := PresentStep(s, r, flow, x);
    LeadsOn(c, s0, s1, Lookup(r, Ack, Some(s.kv.tokens[x])));
    assert LookupStep(s1, r, Ack, Some(s.kv.tokens[x])) == Looking(s, r, flow, x);
  }

  lemma Reads(c: Config, s0: State, s: State, r: nat, flow: Flow, x: Uuid)
    requires Leads(c, s0, s) && CanPresent(s, r, x) && (flow.Explicit? || flow.Silent?)
    requires s.kv.tokens[x].value.familyId !in s.kv.revoked
    ensures Leads(c, s0, Reading(s, r, flow, x))
  {
    Looks(c, s0, s, r, flow, x);
    var s1 := Looking(s, r, flow, x);
    Checks(c, s0, s1, r, Ack);
    assert CheckStep(s1, r, Ack) == Reading(s, r, flow, x);
  }

  // A cleared request that holds the current, unused version of its row.
  ghost predicate CanStore(s: State, r: nat) {
    && r in s.requests && s.requests[r].phase.Cleared? && s.requests[r].jti in s.minted
    && s.requests[r].phase.held.value.id == s.requests[r].jti
    && s.requests[r].phase.held.value.usedAt.None?
  }

  // What Sign and Put do.
  ghost predicate HasStored(c: Config, s: State, t: State, r: nat, y: Uuid)
    requires CanStore(s, r)
  {
    var q := s.requests[r];
    var row := FreshRow(y, s.minted[q.jti].sub, q.phase.held.value.familyId, s.now);
    && t.now == s.now && t.delivered == s.delivered && t.revocations == s.revocations
    && t.minted == s.minted[y := Claims(row.email, row.familyId, s.now, s.now + c.refreshTtl, r)]
    && t.kv == PutToken(s.kv, row, s.now) && t.written == s.written + {Entry(row, s.kv.last + 1, s.now)}
    && t.requests == s.requests[r := q.(signedAt := s.now, mints := Some(y), phase := Stored(q.phase.held, row))]
  }

  lemma Stores(c: Config, s0: State, s: State, r: nat, y: Uuid)
    requires Leads(c, s0, s) && CanStore(s, r) && y !in s.minted
    ensures exists t :: Leads(c, s0, t) && HasStored(c, s, t, r, y)
  {
    Signs(c, s0, s, r, y);
    var s1 := SignStep(c, s, r, y);
    Puts(c, s0, s1, r, Ack);
    assert HasStored(c, s, PutStep(s1, r, Ack), r, y);
  }

  ghost predicate CanCommit(s: State, r: nat) {
    && r in s.requests && s.requests[r].phase.Stored?
    && RevisionMatches(s.kv, s.requests[r].phase.held.value.id, s.requests[r].phase.held.revision)
  }

  // What Cas and Deliver do.
  ghost predicate HasCommitted(s: State, t: State, r: nat)
    requires CanCommit(s, r)
  {
    var q := s.requests[r];
    var y := q.phase.successor.id;
    var row := Used(q.phase.held.value, y, s.now);
    && t.now == s.now && t.delivered == s.delivered + {y} && t.revocations == s.revocations && t.minted == s.minted
    && t.kv == PutToken(s.kv, row, s.now) && t.written == s.written + {Entry(row, s.kv.last + 1, s.now)}
    && t.requests == s.requests[r := q.(casAt := s.now, applied := true, verdict := RotatedOk,
                                        phase := Ended(Issued(y)))]
  }

  lemma Commits(c: Config, s0: State, s: State, r: nat)
    requires Leads(c, s0, s) && CanCommit(s, r)
    ensures exists t :: Leads(c, s0, t) && HasCommitted(s, t, r)
  {
    Swaps(c, s0, s, r, Ack);
    var s1 := CasStep(s, r, Ack);
    Delivers(c, s0, s1, r);
    assert HasCommitted(s, DeliverStep(s1, r), r);
  }

  ghost predicate CannotCommit(s: State, r: nat) {
    && r in s.requests && s.requests[r].phase.Stored? && !s.requests[r].flow.Logout?
    && !RevisionMatches(s.kv, s.requests[r].phase.held.value.id, s.requests[r].phase.held.revision)
  }

  // What a refused Cas and the Revoke after it do.
  ghost predicate HasConflicted(s: State, t: State, r: nat)
    requires CannotCommit(s, r)
  {
    var q := s.requests[r];
    && t.minted == s.minted && q.phase.held.value.familyId in t.revocations
    && t.requests == s.requests[r := q.(casAt := s.now, recorded := true, verdict := Reuse,
                                        phase := Ended(ReuseDetected))]
  }

  lemma Conflicts(c: Config, s0: State, s: State, r: nat)
    requires Leads(c, s0, s) && CannotCommit(s, r)
    ensures exists t :: Leads(c, s0, t) && HasConflicted(s, t, r)
  {
    Swaps(c, s0, s, r, Ack);
    var s1 := CasStep(s, r, Ack);
    Revokes(c, s0, s1, r, Ack);
    assert HasConflicted(s, RevokeStep(s1, r, Ack), r);
  }

  // ---- Retrying ----

  // A client holds the token and an undisturbed request would still rotate it.
  ghost predicate Rotatable(s: State, x: Uuid) {
    && x in s.delivered && !UsedUp(s, x)
    && x in s.minted && Unexpired(s.minted[x].exp, s.now) && s.minted[x].family !in s.kv.revoked
    && x in s.kv.tokens
  }

  lemma CurrentRow(c: Config, s: State, x: Uuid)
    requires Inv(c, s) && x in s.kv.tokens
    ensures s.kv.tokens[x] in s.written && s.kv.tokens[x].value.id == x
    ensures x in s.minted && s.kv.tokens[x].value.familyId == s.minted[x].family
    ensures s.kv.tokens[x].value.usedAt.Some? <==> UsedUp(s, x)
  {
    assert TokenOk(s, x) && CreatedOk(c, s, x);
    UsedUpIsSpent(c, s, x);
  }

  // Request r exchanged token x for the token y of the same family, which is rotatable in turn.
  ghost predicate Exchanged(s: State, t: State, r: nat, x: Uuid, y: Uuid) {
    && r in t.requests && t.requests[r].phase == Ended(Issued(y)) && t.requests[r].verdict.RotatedOk?
    && UsedUp(t, x) && Rotatable(t, y)
    && x in s.minted && t.minted[y].family == s.minted[x].family && t.minted[y].sub == s.minted[x].sub
  }

  lemma FreshIsUnused(c: Config, s: State, y: Uuid)
    requires Inv(c, s) && y !in s.minted
    ensures !UsedUp(s, y) && y !in s.kv.tokens
  {
    UsedUpIsSpent(c, s, y);
    NotCreated(c, s, y);
    NotStored(c, s, y);
  }

  lemma UsedUpMoves(s: State, t: State, e: Entry<RefreshToken>, f: Entry<RefreshToken>, y: Uuid)
    requires t.written == s.written + {e} + {f} && !UsedUp(s, y)
    requires f.value.usedAt.Some? && f.value.id != y && e.value.usedAt.None?
    ensures !UsedUp(t, y) && UsedUp(t, f.value.id)
  {
    assert f in t.written;
  }

  lemma CommittedExchange(c: Config, s: State, s1: State, s2: State, t: State, r: nat, x: Uuid, y: Uuid)
    requires Rotatable(s, x) && CanStore(s1, r) && HasStored(c, s1, s2, r, y) && CanCommit(s2, r)
    requires HasCommitted(s2, t, r)
    requires s1 == s.(requests := s1.requests) && s1.requests[r].jti == x && s1.requests[r].phase.held == s.kv.tokens[x]
    requires s.kv.tokens[x].value.familyId == s.minted[x].family && x != y && !UsedUp(s, y)
    ensures Exchanged(s, t, r, x, y)
  {
    UsedUpMoves(s, t, Entry(s2.requests[r].phase.successor, s.kv.last + 1, s.now),
                Entry(Used(s.kv.tokens[x].value, y, s.now), s2.kv.last + 1, s.now), y);
  }

  lemma ExchangeHolds(c: Config, s: State, r: nat, flow: Flow, x: Uuid, y: Uuid)
    requires Inv(c, s) && Rotatable(s, x) && y !in s.minted && r !in s.requests && (flow.Explicit? || flow.Silent?)
    requires Leads(c, s, Reading(s, r, flow, x)) && s.kv.tokens[x].value.id == x && s.kv.tokens[x].value.usedAt.None?
    requires s.kv.tokens[x].value.familyId == s.minted[x].family
    ensures exists t :: Leads(c, s, t) && Exchanged(s, t, r, x, y)
  {
    var s1 := Reading(s, r, flow, x);
    Stores(c, s, s1, r, y);
    var s2 :| Leads(c, s, s2) && HasStored(c, s1, s2, r, y);
    FreshIsUnused(c, s, y);
    Commits(c, s, s2, r);
    var t :| Leads(c, s, t) && HasCommitted(s2, t, r);
    CommittedExchange(c, s, s1, s2, t, r, x, y);
    assert Exchanged(s, t, r, x, y);
  }

  // There is a run in which one request alone rotates a rotatable token, on either path. (That the
  // handlers' own attempt does is `Comeback.AttemptAnswersExactly`.)
  lemma UndisturbedRequestSucceeds(c: Config, s: State, r: nat, flow: Flow, x: Uuid, y: Uuid)
    requires Reachable(c, s) && Rotatable(s, x)
    requires r !in s.requests && (flow.Explicit? || flow.Silent?) && y !in s.minted
    ensures exists t :: Leads(c, s, t) && Exchanged(s, t, r, x, y)
  {
    ReachableInv(c, s);
    CurrentRow(c, s, x);
    LeadsNowhere(c, s);
    Reads(c, s, s, r, flow, x);
    ExchangeHolds(c, s, r, flow, x, y);
  }

  // The events that take a rotatable token away from its client: its JWT expiring, its row expiring,
  // a conditional write of its row that took effect, and a revocation of its family that did.
  ghost predicate Spoils(s: State, e: Event, x: Uuid)
    requires x in s.minted
  {
    match e
    case Tick(seconds) => !Unexpired(s.minted[x].exp, s.now + seconds)
    case ExpireToken(id) => id == x
    case Cas(r, fault) => r in s.requests && s.requests[r].jti == x && !fault.NotApplied?
    case Revoke(r, fault) => r in s.requests && !fault.NotApplied? &&
      s.requests[r].jti in s.minted && s.minted[s.requests[r].jti].family == s.minted[x].family
    case _ => false
  }

  lemma PutSpoilsNothing(c: Config, s: State, r: nat, fault: Fault, x: Uuid)
    requires Inv(c, s) && Enabled(c, s, Put(r, fault)) && Rotatable(s, x)
    ensures Rotatable(PutStep(s, r, fault), x)
  {
    assert RequestOk(c, s, r) && DeliveredOk(s, x);
  }

  // A conditional write of another row leaves a rotatable token so.
  lemma OtherRowSpoilsNothing(s: State, t: State, e: Entry<RefreshToken>, x: Uuid)
    requires Rotatable(s, x) && e.value.id != x
    requires t.now == s.now && t.minted == s.minted && t.delivered == s.delivered
    requires t.written <= s.written + {e} && t.kv.revoked == s.kv.revoked && x in t.kv.tokens
    ensures Rotatable(t, x)
  {
  }

  lemma CasSpoilsItsOwn(c: Config, s: State, r: nat, fault: Fault, x: Uuid)
    requires Inv(c, s) && Enabled(c, s, Cas(r, fault)) && Rotatable(s, x)
      && (s.requests[r].jti != x || fault.NotApplied?)
    ensures Rotatable(CasStep(s, r, fault), x)
  {
    assert RequestOk(c, s, r);
    var t := CasStep(s, r, fault);
    if t.kv != s.kv {
      OtherRowSpoilsNothing(s, t, t.kv.tokens[s.requests[r].jti], x);
    }
  }

  // Every version ever written of an unused row is the current one, so no read of it is stale.
  lemma UnusedMatches(c: Config, s: State, x: Uuid, held: Entry<RefreshToken>)
    requires Inv(c, s) && x in s.kv.tokens && !UsedUp(s, x) && held in s.written && held.value.id == x
    ensures held == s.kv.tokens[x]
  {
    HeldRow(c, s, x, held);
    UsedUpIsSpent(c, s, x);
    assert TokenOk(s, x);
  }

  lemma CasSpoils(c: Config, s: State, r: nat, fault: Fault, x: Uuid)
    requires Inv(c, s) && Enabled(c, s, Cas(r, fault)) && Rotatable(s, x) && s.requests[r].jti == x
    requires !fault.NotApplied?
    ensures !Rotatable(CasStep(s, r, fault), x)
  {
    assert RequestOk(c, s, r);
    UnusedMatches(c, s, x, s.requests[r].phase.held);
    assert CasStep(s, r, fault).kv.tokens[x] in CasStep(s, r, fault).written;
  }

  // Nothing else takes it away: not a crash, not a failure of any operation before the compare-and-swap
  // takes effect, and nothing that other requests do with other tokens.
  lemma OnlySpoilersSpoil(c: Config, s: State, e: Event, x: Uuid)
    requires Reachable(c, s) && Enabled(c, s, e) && Rotatable(s, x)
    ensures Rotatable(Apply(c, s, e), x) <==> !Spoils(s, e, x)
  {
    ReachableInv(c, s);
    match e
    case Put(r, fault) => PutSpoilsNothing(c, s, r, fault, x);
    case Cas(r, fault) =>
      if Spoils(s, e, x) { CasSpoils(c, s, r, fault, x); } else { CasSpoilsItsOwn(c, s, r, fault, x); }
    case Revoke(r, _) => RevokedNow(c, s, r, e.fault);
    case _ =>
  }

  // A run without a spoiler of x.
  ghost predicate Spares(c: Config, s: State, es: seq<Event>, x: Uuid)
    requires Legal(c, s, es)
    decreases |es|
  {
    es == [] || (x in s.minted && !Spoils(s, es[0], x) && Spares(c, Apply(c, s, es[0]), es[1..], x))
  }

  lemma {:induction false} SparedStaysRotatable(c: Config, s: State, es: seq<Event>, x: Uuid)
    requires Reachable(c, s) && Rotatable(s, x) && Legal(c, s, es) && Spares(c, s, es, x)
    ensures Rotatable(After(c, s, es), x)
    decreases |es|
  {
    if es != [] {
      OnlySpoilersSpoil(c, s, es[0], x);
      LeadsOn(c, INIT, s, es[0]);
      SparedStaysRotatable(c, Apply(c, s, es[0]), es[1..], x);
    }
  }

  // Whatever crashes, failures, stale reads, waits and other requests come between, a client whose
  // token nothing spoiled can come back, and a run exists in which that works.
  lemma LaterRequestSucceeds(c: Config, s: State, es: seq<Event>, r: nat, flow: Flow, x: Uuid, y: Uuid)
    requires Reachable(c, s) && Rotatable(s, x) && Legal(c, s, es) && Spares(c, s, es, x)
    requires var t := After(c, s, es); r !in t.requests && y !in t.minted && (flow.Explicit? || flow.Silent?)
    ensures var t := After(c, s, es); exists u :: Leads(c, t, u) && Exchanged(t, u, r, x, y)
  {
    SparedStaysRotatable(c, s, es, x);
    RunContinues(c, INIT, s, es);
    UndisturbedRequestSucceeds(c, After(c, s, es), r, flow, x, y);
  }

  // After a compare-and-swap that reported an error the client still holds its old token. It can
  // be rotated again exactly when the write was not applied; the service's README.md:83 promises it always.
  lemma RetryAfterCasError(c: Config, s: State, r: nat, fault: Fault)
    requires Reachable(c, s) && Enabled(c, s, Cas(r, fault)) && !fault.Ack? && Rotatable(s, s.requests[r].jti)
    ensures var t := CasStep(s, r, fault);
      && t.requests[r].phase == Ended(StoreFailed) && t.requests[r].verdict.StoreError?
      && (Rotatable(t, s.requests[r].jti) <==> fault.NotApplied?)
      && (UsedUp(t, s.requests[r].jti) <==> fault.LostAck?)
  {
    ReachableInv(c, s);
    var x, held := s.requests[r].jti, s.requests[r].phase.held;
    assert RequestOk(c, s, r);
    if fault.NotApplied? {
      CasSpoilsItsOwn(c, s, r, fault, x);
    } else {
      UnusedMatches(c, s, x, held);
      assert CasStep(s, r, fault).kv.tokens[x] in CasStep(s, r, fault).written;
    }
  }

  // After a lost acknowledgement the innocent retry is taken for reuse and revokes the family.
  ghost predicate Doomed(s: State, t: State, r: nat, x: Uuid) {
    && r in t.requests && t.requests[r].phase == Ended(ReuseDetected) && t.requests[r].verdict.Reuse?
    && x in s.minted && s.minted[x].family in t.kv.revoked && s.minted[x].family in t.revocations
  }

  lemma SignedUsedTokenDooms(c: Config, s0: State, s: State, r: nat, x: Uuid)
    requires Leads(c, s0, s) && r in s.requests && s.requests[r].phase.Signed? && !s.requests[r].flow.Logout?
    requires s.requests[r].phase.held.value.usedAt.Some?
    requires x in s0.minted && s.requests[r].phase.held.value.familyId == s0.minted[x].family
    ensures exists t :: Leads(c, s0, t) && Doomed(s0, t, r, x)
  {
    Revokes(c, s0, s, r, Ack);
    assert Doomed(s0, RevokeStep(s, r, Ack), r, x);
  }

  lemma UsedTokenDooms(c: Config, s: State, r: nat, flow: Flow, x: Uuid, y: Uuid)
    requires Reachable(c, s) && x in s.delivered && UsedUp(s, x) && x in s.kv.tokens
    requires x in s.minted && Unexpired(s.minted[x].exp, s.now) && s.minted[x].family !in s.kv.revoked
    requires r !in s.requests && (flow.Explicit? || flow.Silent?) && y !in s.minted
    ensures exists t :: Leads(c, s, t) && Doomed(s, t, r, x)
  {
    ReachableInv(c, s);
    CurrentRow(c, s, x);
    LeadsNowhere(c, s);
    Reads(c, s, s, r, flow, x);
    var s1 := Reading(s, r, flow, x);
    Signs(c, s, s1, r, y);
    SignedUsedTokenDooms(c, s, SignStep(c, s1, r, y), r, x);
  }
}

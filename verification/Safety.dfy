/**
 What the rotation protocol guarantees in every state of every run, with any interleaving, crash,
 expiry, stale row read, failed operation or lost acknowledgement.
 */
module Safety {
  import opened Types
  import opened Kv
  import opened Protocol
  import opened Invariant

  lemma ReachableInv(c: Config, s: State)
    requires Reachable(c, s)
    ensures Inv(c, s)
  {
    var es :| Legal(c, INIT, es) && After(c, INIT, es) == s;
    InitOk(c);
    RunKeeps(c, INIT, es);
  }

  // A used copy of the row has been written, whether or not its writer learned of it.
  ghost predicate UsedUp(s: State, x: Uuid) {
    exists e :: e in s.written && e.value.id == x && e.value.usedAt.Some?
  }

  // The row `x` names `y` as its replacement.
  ghost predicate Link(s: State, x: Uuid, y: Uuid) {
    exists e :: e in s.written && e.value.id == x && e.value.usedAt.Some? && e.value.replacedBy == Some(y)
  }

  ghost predicate Live(s: State, x: Uuid) {
    x in s.delivered && !UsedUp(s, x)
  }

  lemma UsedUpIsSpent(c: Config, s: State, x: Uuid)
    requires Inv(c, s)
    ensures UsedUp(s, x) <==> x in s.spent
    ensures x in s.spent ==> SpentOk(s, x) && Link(s, x, s.spent[x].value.replacedBy.value)
  {
    if UsedUp(s, x) {
      var e :| e in s.written && e.value.id == x && e.value.usedAt.Some?;
      HeldRow(c, s, x, e);
    }
    assert x in s.spent ==> SpentOk(s, x);
    assert x in s.created ==> CreatedOk(c, s, x);
  }

  lemma LinkIsSpent(c: Config, s: State, x: Uuid, y: Uuid)
    requires Inv(c, s) && Link(s, x, y)
    ensures x in s.spent && SpentOk(s, x) && s.spent[x].value.replacedBy == Some(y)
  {
    var e :| e in s.written && e.value.id == x && e.value.usedAt.Some? && e.value.replacedBy == Some(y);
    HeldRow(c, s, x, e);
    assert SpentOk(s, x);
  }

  // Each family has at most one token that a client holds and no rotation has used up.
  lemma SingleLiveToken(c: Config, s: State, x: Uuid, y: Uuid)
    requires Reachable(c, s)
    requires Live(s, x) && Live(s, y)
    ensures x in s.minted && y in s.minted
    ensures s.minted[x].family == s.minted[y].family ==> x == y
  {
    ReachableInv(c, s);
    UsedUpIsSpent(c, s, x);
    UsedUpIsSpent(c, s, y);
    assert DeliveredOk(s, x) && DeliveredOk(s, y);
  }

  // At most one request ever has its conditional write of a given token applied,
  // so at most one is told that its rotation succeeded.
  lemma AtMostOneWinner(c: Config, s: State, r1: nat, r2: nat)
    requires Reachable(c, s)
    requires r1 in s.requests && r2 in s.requests && s.requests[r1].jti == s.requests[r2].jti
    requires s.requests[r1].applied || s.requests[r1].verdict.RotatedOk?
    requires s.requests[r2].applied || s.requests[r2].verdict.RotatedOk?
    ensures r1 == r2
  {
    ReachableInv(c, s);
    assert RequestOk(c, s, r1) && RequestOk(c, s, r2);
  }

  // A row has one version as created and at most one as used, and the used one is the later write.
  lemma TwoVersionsPerRow(c: Config, s: State, e: Entry<RefreshToken>, f: Entry<RefreshToken>)
    requires Reachable(c, s)
    requires e in s.written && f in s.written && e.value.id == f.value.id
    ensures e.value.usedAt.Some? == f.value.usedAt.Some? ==> e == f
    ensures e.value.usedAt.None? && f.value.usedAt.Some? ==>
      && e.revision < f.revision && f.value.replacedBy.Some?
      && f.value == Used(e.value, f.value.replacedBy.value, f.value.usedAt.value)
  {
    ReachableInv(c, s);
    var x := e.value.id;
    HeldRow(c, s, x, e);
    HeldRow(c, s, x, f);
    assert x in s.spent ==> SpentOk(s, x);
  }

  // Two rotations of one token that both run to a verdict leave its family revoked.
  lemma DoublePresentationCaught(c: Config, s: State, r1: nat, r2: nat)
    requires Reachable(c, s)
    requires r1 in s.requests && r2 in s.requests && r1 != r2 && s.requests[r1].jti == s.requests[r2].jti
    requires forall r :: r in {r1, r2} ==>
      var q := s.requests[r];
      q.verdict.RotatedOk? || (q.verdict.Reuse? && q.recorded)
    ensures var x := s.requests[r1].jti;
      x in s.minted && var f := s.minted[x].family;
      f in s.revocations && (f in s.kv.revoked || s.revocations[f].at + c.retention <= s.now)
  {
    ReachableInv(c, s);
    if s.requests[r1].verdict.RotatedOk? && s.requests[r2].verdict.RotatedOk? {
      AtMostOneWinner(c, s, r1, r2);
    }
    assert RequestOk(c, s, r1) && RequestOk(c, s, r2);
    assert RevocationOk(c, s, s.minted[s.requests[r1].jti].family);
  }

  lemma SpentWasDelivered(c: Config, s: State, x: Uuid)
    requires Inv(c, s)
    ensures x in s.spent ==> x in s.delivered
  {
    if x in s.spent {
      assert SpentOk(s, x);
      assert RequestOk(c, s, s.minted[s.spent[x].value.replacedBy.value].owner);
    }
  }

  // When a response is about to hand out a token, its row is stored, unused, never handed out before,
  // in the family and with the email of the JWT, and still in the bucket unless it outlived the retention.
  lemma DeliveryIsDurable(c: Config, s: State, r: nat)
    requires Reachable(c, s) && Enabled(c, s, Deliver(r))
    ensures var row := s.requests[r].phase.successor; var x := row.id;
      && x in s.minted && row.email == s.minted[x].sub && row.familyId == s.minted[x].family
      && !UsedUp(s, x) && x !in s.delivered
      && x in s.created && s.created[x].value == row
      && (s.created[x].writtenAt + c.retention <= s.now ||
          (x in s.kv.tokens && s.kv.tokens[x].value == row))
  {
    ReachableInv(c, s);
    assert RequestOk(c, s, r);
    var x := s.requests[r].phase.successor.id;
    UsedUpIsSpent(c, s, x);
    assert CreatedOk(c, s, x);
    SpentWasDelivered(c, s, x);
    assert x in s.delivered ==> DeliveredOk(s, x);
    assert x in s.kv.tokens ==> TokenOk(s, x);
  }

  // Every token minted in a family, however long the chain of rotations, carries the email
  // that its login verified, and so does every row.
  lemma IdentityContinuity(c: Config, s: State)
    requires Reachable(c, s)
    ensures forall x :: x in s.minted ==>
      s.minted[x].family in s.families && s.minted[x].sub == s.families[s.minted[x].family].email
    ensures forall a :: a in s.accessTokens ==> a.family in s.families && a.sub == s.families[a.family].email
    ensures forall e :: e in s.written ==>
      e.value.familyId in s.families && e.value.email == s.families[e.value.familyId].email
  {
    ReachableInv(c, s);
    forall x | x in s.minted
      ensures s.minted[x].family in s.families && s.minted[x].sub == s.families[s.minted[x].family].email
    {
      assert MintOk(c, s, x);
    }
    forall a | a in s.accessTokens ensures a.family in s.families && a.sub == s.families[a.family].email {
      assert AccessOk(c, s, a);
    }
    forall e | e in s.written
      ensures e.value.familyId in s.families && e.value.email == s.families[e.value.familyId].email
    {
      HeldRow(c, s, e.value.id, e);
    }
  }

  // ---- The history of a family ----

  ghost predicate LinksForward(s: State) {
    forall x :: x in s.spent ==>
      && x in s.created && s.spent[x].value.replacedBy.Some?
      && var y := s.spent[x].value.replacedBy.value;
      && y in s.created && s.created[x].revision < s.created[y].revision <= s.kv.last
  }

  // The rows met by following `replaced_by` from x.
  ghost function Walk(s: State, x: Uuid): (p: seq<Uuid>)
    requires LinksForward(s)
    ensures |p| > 0 && p[0] == x
    decreases if x in s.created && s.created[x].revision <= s.kv.last
      then s.kv.last - s.created[x].revision else s.kv.last + 1
  {
    if x in s.spent then [x] + Walk(s, s.spent[x].value.replacedBy.value) else [x]
  }

  lemma InvLinksForward(c: Config, s: State)
    requires Inv(c, s)
    ensures LinksForward(s)
  {
    forall x | x in s.spent
      ensures x in s.created && s.spent[x].value.replacedBy.Some? &&
              var y := s.spent[x].value.replacedBy.value;
              y in s.created && s.created[x].revision < s.created[y].revision <= s.kv.last
    {
      assert SpentOk(s, x) && CreatedOk(c, s, s.spent[x].value.replacedBy.value);
    }
  }

  ghost predicate Increasing(s: State, p: seq<Uuid>) {
    && (forall i :: 0 < i < |p| ==> p[i] in s.created)
    && (forall i, j :: 0 <= i < j < |p| && p[i] in s.created ==>
        p[j] in s.created && s.created[p[i]].revision < s.created[p[j]].revision)
  }

  // `p` is the whole line of family f.
  ghost predicate IsHistory(s: State, f: Uuid, p: seq<Uuid>)
    requires f in s.families
  {
    && |p| > 0 && p[0] == s.families[f].id
    && (forall i :: 0 <= i < |p| - 1 ==> Link(s, p[i], p[i + 1]))
    && !UsedUp(s, p[|p| - 1])
    && Increasing(s, p)
    && (forall x :: x in s.minted && s.minted[x].family == f && (x in s.delivered || UsedUp(s, x)) ==> x in p)
  }

  // `p` follows the links to their end, and is closed under them.
  ghost predicate Follows(s: State, p: seq<Uuid>)
    requires LinksForward(s)
  {
    && |p| > 0
    && (forall i :: 0 <= i < |p| - 1 ==> Link(s, p[i], p[i + 1]))
    && p[|p| - 1] !in s.spent
    && Increasing(s, p)
    && (forall y :: y in p && y in s.spent ==> s.spent[y].value.replacedBy.value in p)
  }

  lemma FollowsOn(s: State, x: Uuid, p: seq<Uuid>)
    requires LinksForward(s) && Follows(s, p) && x in s.spent && s.spent[x].value.replacedBy == Some(p[0])
    requires Link(s, x, p[0])
    ensures Follows(s, [x] + p)
  {
  }

  lemma {:induction false} WalkFollows(c: Config, s: State, x: Uuid)
    requires Inv(c, s) && LinksForward(s)
    ensures Follows(s, Walk(s, x))
    decreases |Walk(s, x)|
  {
    if x in s.spent {
      var y := s.spent[x].value.replacedBy.value;
      UsedUpIsSpent(c, s, x);
      assert Walk(s, x) == [x] + Walk(s, y);
      WalkFollows(c, s, y);
      FollowsOn(s, x, Walk(s, y));
    }
  }

  lemma {:induction false} OnTheWalk(c: Config, s: State, f: Uuid, x: Uuid)
    requires Inv(c, s) && LinksForward(s) && f in s.families
    requires OnLine(s, x) && s.minted[x].family == f && x in s.created
    ensures x in Walk(s, s.families[f].id)
    decreases s.created[x].revision
  {
    assert MintOk(c, s, x);
    var r := s.minted[x].owner;
    if !s.requests[r].flow.Login? {
      var w := s.requests[r].jti;
      assert RequestOk(c, s, r) && DeliveredOk(s, w);
      OnTheWalk(c, s, f, w);
      WalkFollows(c, s, s.families[f].id);
    }
  }

  lemma TokenOnTheWalk(c: Config, s: State, f: Uuid, x: Uuid)
    requires Inv(c, s) && LinksForward(s) && f in s.families
    requires x in s.minted && s.minted[x].family == f && (x in s.delivered || UsedUp(s, x))
    ensures x in Walk(s, s.families[f].id)
  {
    UsedUpIsSpent(c, s, x);
    SpentWasDelivered(c, s, x);
    assert DeliveredOk(s, x);
    OnTheWalk(c, s, f, x);
  }

  lemma EveryTokenOnTheWalk(c: Config, s: State, f: Uuid)
    requires Inv(c, s) && LinksForward(s) && f in s.families
    ensures forall x :: x in s.minted && s.minted[x].family == f && (x in s.delivered || UsedUp(s, x)) ==>
      x in Walk(s, s.families[f].id)
  {
    forall x | x in s.minted && s.minted[x].family == f && (x in s.delivered || UsedUp(s, x))
      ensures x in Walk(s, s.families[f].id)
    {
      TokenOnTheWalk(c, s, f, x);
    }
  }

  // The `replaced_by` links of a family form one path from its login row, along which creation
  // revisions increase; every token ever handed out or used is on it.
  lemma LinearHistory(c: Config, s: State, f: Uuid)
    requires Reachable(c, s) && f in s.families
    ensures LinksForward(s) && IsHistory(s, f, Walk(s, s.families[f].id))
  {
    ReachableInv(c, s);
    InvLinksForward(c, s);
    WalkIsHistory(c, s, f);
  }

  lemma WalkIsHistory(c: Config, s: State, f: Uuid)
    requires Inv(c, s) && LinksForward(s) && f in s.families
    ensures IsHistory(s, f, Walk(s, s.families[f].id))
  {
    var p := Walk(s, s.families[f].id);
    WalkFollows(c, s, s.families[f].id);
    UsedUpIsSpent(c, s, p[|p| - 1]);
    EveryTokenOnTheWalk(c, s, f);
  }

  // Links go from a row to one row only, from one row only, and stay within the family; the
  // replacement was written after the row was created and before the row was marked used.
  lemma LinksAreOneToOne(c: Config, s: State, x: Uuid, y: Uuid)
    requires Reachable(c, s) && Link(s, x, y)
    ensures forall z :: Link(s, x, z) ==> z == y
    ensures forall z :: Link(s, z, y) ==> z == x
    ensures x in s.minted && y in s.minted && s.minted[x].family == s.minted[y].family
    ensures x in s.created && y in s.created && s.created[x].revision < s.created[y].revision
    ensures forall e :: e in s.written && e.value.id == x && e.value.usedAt.Some? ==> s.created[y].revision < e.revision
  {
    ReachableInv(c, s);
    LinkIsSpent(c, s, x, y);
    assert MintOk(c, s, y);
    forall z | Link(s, x, z) ensures z == y { LinkIsSpent(c, s, x, z); }
    forall e | e in s.written && e.value.id == x && e.value.usedAt.Some? ensures e == s.spent[x] {
      HeldRow(c, s, x, e);
    }
    forall z | Link(s, z, y) ensures z == x { LinkIsSpent(c, s, z, y); }
  }
}

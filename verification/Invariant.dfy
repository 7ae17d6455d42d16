/** The inductive invariant of the rotation protocol, and the proof that every event keeps it. */
module Invariant {
  import opened Types
  import opened Kv
  import opened Protocol

  // The token lies on its family's line: the login token, or one that a conditional write linked to.
  ghost predicate OnLine(s: State, x: Uuid) {
    && x in s.minted
    && s.minted[x].owner in s.requests
    && (s.requests[s.minted[x].owner].flow.Login? || s.requests[s.minted[x].owner].applied)
  }

  ghost predicate MintOk(c: Config, s: State, x: Uuid)
    requires x in s.minted
  {
    var m := s.minted[x];
    && m.owner in s.requests
    && s.requests[m.owner].mints == Some(x)
    && m.family in s.families && m.sub == s.families[m.family].email
    && m.iat <= s.now && m.exp == m.iat + c.refreshTtl
    && (if s.requests[m.owner].flow.Login? then s.families[m.family].id == x
        else s.requests[m.owner].jti in s.minted && s.minted[s.requests[m.owner].jti].family == m.family)
  }

  ghost predicate FamilyOk(s: State, f: Uuid)
    requires f in s.families
  {
    var x := s.families[f].id;
    && x in s.minted && s.minted[x].family == f
    && s.minted[x].owner in s.requests && s.requests[s.minted[x].owner].flow.Login?
  }

  ghost predicate AccessOk(c: Config, s: State, a: AccessGrant) {
    && a.family in s.families && a.sub == s.families[a.family].email
    && a.iat <= s.now && a.exp == a.iat + c.accessTtl
  }

  ghost predicate CreatedOk(c: Config, s: State, x: Uuid)
    requires x in s.created
  {
    var e := s.created[x];
    && e in s.written && x in s.minted
    && e.value.id == x && e.value.email == s.minted[x].sub && e.value.familyId == s.minted[x].family
    && e.value.usedAt.None? && e.value.replacedBy.None?
    && s.minted[x].iat <= e.writtenAt <= s.now && e.revision <= s.kv.last
    && (x !in s.spent && x !in s.kv.tokens ==> e.writtenAt + c.retention <= s.now)
  }

  ghost predicate SpentOk(s: State, x: Uuid)
    requires x in s.spent
  {
    var e := s.spent[x];
    && e in s.written && x in s.created
    && e.value.usedAt.Some? && e.value.replacedBy.Some?
    && e.value == Used(s.created[x].value, e.value.replacedBy.value, e.value.usedAt.value)
    && s.created[x].revision < e.revision <= s.kv.last
    && var y := e.value.replacedBy.value;
    && y in s.created && s.created[x].revision < s.created[y].revision < e.revision
    && y in s.minted && s.minted[y].owner in s.requests
    && var q := s.requests[s.minted[y].owner];
    && !q.flow.Login? && q.jti == x && q.applied
  }

  ghost predicate WrittenOk(s: State, e: Entry<RefreshToken>) {
    && e.value.id in s.created
    && (e == s.created[e.value.id] || (e.value.id in s.spent && e == s.spent[e.value.id]))
  }

  // The bucket holds the latest version of a row, or has let it expire.
  ghost predicate TokenOk(s: State, x: Uuid)
    requires x in s.kv.tokens
  {
    && x in s.created
    && s.kv.tokens[x] == if x in s.spent then s.spent[x] else s.created[x]
  }

  ghost predicate MarkerOk(s: State, f: Uuid)
    requires f in s.kv.revoked
  {
    f in s.revocations && s.revocations[f].at <= s.kv.revoked[f].writtenAt <= s.now
  }

  ghost predicate RevocationOk(c: Config, s: State, f: Uuid)
    requires f in s.revocations
  {
    var v := s.revocations[f];
    && v.at <= s.now
    && (f !in s.kv.revoked ==> v.at + c.retention <= s.now)
    && v.request in s.requests
    && var q := s.requests[v.request];
    && !q.flow.Login? && q.recorded
    && q.jti in s.minted && s.minted[q.jti].family == f
    && q.phase.Ended? && (q.flow.Logout? || q.verdict.Reuse?)
  }

  ghost predicate DeliveredOk(s: State, x: Uuid) {
    && x in s.created && OnLine(s, x)
    && s.requests[s.minted[x].owner].phase == Ended(Issued(x))
  }

  ghost predicate HeldOk(s: State, x: Uuid, held: Entry<RefreshToken>) {
    held in s.written && held.value.id == x
  }

  ghost predicate SuccessorOk(s: State, r: nat, row: RefreshToken)
    requires r in s.requests
  {
    && row.id in s.minted && s.minted[row.id].owner == r && s.requests[r].mints == Some(row.id)
    && row.email == s.minted[row.id].sub && row.familyId == s.minted[row.id].family
    && row.usedAt.None? && row.replacedBy.None?
  }

  // A rotation that lost did so because another one won, or because the row had expired.
  ghost predicate Beaten(c: Config, s: State, q: Request) {
    && !q.applied
    && q.jti in s.created
    && (q.jti in s.spent || s.created[q.jti].writtenAt + c.retention <= q.casAt)
  }

  ghost predicate PhaseOk(c: Config, s: State, r: nat)
    requires r in s.requests
  {
    var q := s.requests[r];
    match q.phase
    case Presented => q.mints.None?
    case Found(held) => q.mints.None? && HeldOk(s, q.jti, held)
    case Cleared(held) => q.mints.None? && !q.flow.Logout? && HeldOk(s, q.jti, held)
    case Signed(held, row) =>
      && !q.flow.Logout? && HeldOk(s, q.jti, held) && SuccessorOk(s, r, row)
      && row.id !in s.created && row.familyId == held.value.familyId
    case Stored(held, row) =>
      && !q.flow.Logout? && HeldOk(s, q.jti, held) && SuccessorOk(s, r, row)
      && row.id in s.created && s.created[row.id].value == row && row.familyId == held.value.familyId
      && held.revision < s.created[row.id].revision && held.value.usedAt.None?
    case Conflicted(held) => !q.flow.Logout? && HeldOk(s, q.jti, held) && Beaten(c, s, q)
    case Opening(row) => SuccessorOk(s, r, row) && row.id !in s.created
    case Committed(row) =>
      && SuccessorOk(s, r, row) && row.id in s.created && s.created[row.id].value == row
    case Ended(outcome) =>
      outcome.Issued? ==> q.mints == Some(outcome.id) && outcome.id in s.delivered
  }

  // A step that a request has not taken yet bears the time of its verification.
  ghost predicate StampsOk(q: Request) {
    && (q.phase.Presented? || q.phase.Found? ==> q.checkedAt == q.verifiedAt && q.readOk)
    && (q.phase.Presented? || q.phase.Found? || q.phase.Cleared? ==> q.signedAt == q.verifiedAt)
    && (q.phase.Presented? || q.phase.Found? || q.phase.Cleared? || q.phase.Signed? || q.phase.Stored? ==>
          q.casAt == q.verifiedAt)
  }

  ghost predicate RequestOk(c: Config, s: State, r: nat)
    requires r in s.requests
  {
    var q := s.requests[r];
    && q.verifiedAt <= q.checkedAt <= s.now && q.signedAt <= s.now && q.casAt <= s.now && StampsOk(q)
    && (q.mints.Some? ==> q.mints.value in s.minted && s.minted[q.mints.value].owner == r)
    && PhaseOk(c, s, r)
    && (if q.flow.Login? then
          && (q.phase.Opening? || q.phase.Committed? || q.phase.Ended?)
          && !q.applied && q.verdict.Pending? && !q.recorded
          && q.mints == Some(q.jti)
        else
          && !q.phase.Opening? && q.jti in s.delivered && q.jti in s.minted
          && ((!q.phase.Ended? || !q.verdict.Pending?) ==> Unexpired(s.minted[q.jti].exp, q.verifiedAt))
          && (q.applied ==> q.jti in s.spent && q.mints.Some? && s.spent[q.jti].value.replacedBy == q.mints)
          && (!q.phase.Ended? ==>
                q.applied == q.phase.Committed? && q.verdict == if q.applied then RotatedOk else Pending)
          && (q.verdict.RotatedOk? ==> q.applied)
          && (q.verdict.Reuse? ==> Beaten(c, s, q))
          && (q.phase.Ended? && q.phase.outcome.Issued? ==> q.applied && q.verdict.RotatedOk?)
          && (q.recorded ==> s.minted[q.jti].family in s.revocations))
  }

  // At most one token of a family's line is unspent.
  ghost predicate LineOk(s: State) {
    forall x, y ::
      OnLine(s, x) && OnLine(s, y) && x !in s.spent && y !in s.spent && s.minted[x].family == s.minted[y].family
      ==> x == y
  }

  ghost predicate TokensInv(c: Config, s: State) {
    && (forall x {:trigger MintOk(c, s, x)} :: x in s.minted ==> MintOk(c, s, x))
    && (forall f {:trigger FamilyOk(s, f)} :: f in s.families ==> FamilyOk(s, f))
    && (forall a {:trigger AccessOk(c, s, a)} :: a in s.accessTokens ==> AccessOk(c, s, a))
    && (forall x {:trigger DeliveredOk(s, x)} :: x in s.delivered ==> DeliveredOk(s, x))
  }

  ghost predicate RowsInv(c: Config, s: State) {
    && (forall x {:trigger CreatedOk(c, s, x)} :: x in s.created ==> CreatedOk(c, s, x))
    && (forall x {:trigger SpentOk(s, x)} :: x in s.spent ==> SpentOk(s, x))
    && (forall e {:trigger WrittenOk(s, e)} :: e in s.written ==> WrittenOk(s, e))
    && (forall x {:trigger TokenOk(s, x)} :: x in s.kv.tokens ==> TokenOk(s, x))
  }

  ghost predicate MarkersInv(c: Config, s: State) {
    && (forall f {:trigger MarkerOk(s, f)} :: f in s.kv.revoked ==> MarkerOk(s, f))
    && (forall f {:trigger RevocationOk(c, s, f)} :: f in s.revocations ==> RevocationOk(c, s, f))
  }

  ghost predicate RequestsInv(c: Config, s: State) {
    forall r {:trigger RequestOk(c, s, r)} :: r in s.requests ==> RequestOk(c, s, r)
  }

  ghost predicate Inv(c: Config, s: State) {
    TokensInv(c, s) && RowsInv(c, s) && MarkersInv(c, s) && RequestsInv(c, s) && LineOk(s)
  }

  lemma InitOk(c: Config)
    ensures Inv(c, INIT)
  {
  }

  // ---- What no event undoes ----

  ghost predicate Later(q: Request, p: Request) {
    && p.flow == q.flow && p.jti == q.jti && p.verifiedAt == q.verifiedAt
    && (q.mints.Some? ==> p.mints == q.mints)
    && (q.applied ==> p.applied)
    && (q.phase.Ended? ==> p == q)
  }

  ghost predicate Grows(s: State, t: State) {
    && s.now <= t.now && s.kv.last <= t.kv.last
    && s.written <= t.written && s.delivered <= t.delivered
    && (forall x :: x in s.minted ==> x in t.minted && t.minted[x] == s.minted[x])
    && (forall f :: f in s.families ==> f in t.families && t.families[f] == s.families[f])
    && (forall x :: x in s.created ==> x in t.created && t.created[x] == s.created[x])
    && (forall x :: x in s.spent ==> x in t.spent && t.spent[x] == s.spent[x])
    && (forall f :: f in s.revocations ==> f in t.revocations && t.revocations[f] == s.revocations[f])
    && (forall r {:trigger r in t.requests} {:trigger t.requests[r]} :: r in s.requests ==>
        r in t.requests && Later(s.requests[r], t.requests[r]))
  }

  lemma MintStable(c: Config, s: State, t: State, x: Uuid)
    requires Grows(s, t) && x in s.minted && MintOk(c, s, x)
    ensures x in t.minted && MintOk(c, t, x)
  {
  }

  lemma FamilyStable(s: State, t: State, f: Uuid)
    requires Grows(s, t) && f in s.families && FamilyOk(s, f)
    ensures f in t.families && FamilyOk(t, f)
  {
  }

  lemma AccessStable(c: Config, s: State, t: State, a: AccessGrant)
    requires Grows(s, t) && AccessOk(c, s, a)
    ensures AccessOk(c, t, a)
  {
  }

  lemma DeliveredStable(s: State, t: State, x: Uuid)
    requires Grows(s, t) && DeliveredOk(s, x)
    ensures DeliveredOk(t, x)
  {
  }

  lemma SpentStable(s: State, t: State, x: Uuid)
    requires Grows(s, t) && x in s.spent && SpentOk(s, x)
    ensures x in t.spent && SpentOk(t, x)
  {
  }

  lemma WrittenStable(s: State, t: State, e: Entry<RefreshToken>)
    requires Grows(s, t) && WrittenOk(s, e)
    ensures WrittenOk(t, e)
  {
  }

  lemma OtherRequestStable(c: Config, s: State, t: State, r: nat)
    requires Grows(s, t) && r in s.requests && RequestOk(c, s, r) && t.requests[r] == s.requests[r]
    requires s.requests[r].phase.Opening? || s.requests[r].phase.Signed? ==>
      s.requests[r].phase.successor.id !in t.created
    ensures RequestOk(c, t, r)
  {
  }

  // ---- From old elements to the whole invariant ----

  lemma TokensFrame(c: Config, s: State, t: State)
    requires TokensInv(c, s) && Grows(s, t)
    requires forall x {:trigger MintOk(c, t, x)} :: x in t.minted && x !in s.minted ==> MintOk(c, t, x)
    requires forall f {:trigger FamilyOk(t, f)} :: f in t.families && f !in s.families ==> FamilyOk(t, f)
    requires forall a {:trigger AccessOk(c, t, a)} :: a in t.accessTokens && a !in s.accessTokens ==> AccessOk(c, t, a)
    requires forall x {:trigger DeliveredOk(t, x)} :: x in t.delivered && x !in s.delivered ==> DeliveredOk(t, x)
    ensures TokensInv(c, t)
  {
    forall x {:trigger MintOk(c, t, x)} | x in t.minted ensures MintOk(c, t, x) {
      if x in s.minted { MintStable(c, s, t, x); }
    }
    forall f {:trigger FamilyOk(t, f)} | f in t.families ensures FamilyOk(t, f) {
      if f in s.families { FamilyStable(s, t, f); }
    }
    forall a {:trigger AccessOk(c, t, a)} | a in t.accessTokens ensures AccessOk(c, t, a) {
      if a in s.accessTokens { AccessStable(c, s, t, a); }
    }
    forall x {:trigger DeliveredOk(t, x)} | x in t.delivered ensures DeliveredOk(t, x) {
      if x in s.delivered { DeliveredStable(s, t, x); }
    }
  }

  // Events that write no row and expire none.
  lemma RowsFrame(c: Config, s: State, t: State)
    requires RowsInv(c, s) && Grows(s, t)
    requires t.kv.tokens == s.kv.tokens && t.created == s.created && t.spent == s.spent && t.written == s.written
    ensures RowsInv(c, t)
  {
    forall x {:trigger CreatedOk(c, t, x)} | x in t.created ensures CreatedOk(c, t, x) {
      assert CreatedOk(c, s, x);
    }
    forall x {:trigger SpentOk(t, x)} | x in t.spent ensures SpentOk(t, x) {
      SpentStable(s, t, x);
    }
    forall e {:trigger WrittenOk(t, e)} | e in t.written ensures WrittenOk(t, e) {
      WrittenStable(s, t, e);
    }
    forall x {:trigger TokenOk(t, x)} | x in t.kv.tokens ensures TokenOk(t, x) {
      assert TokenOk(s, x);
    }
  }

  lemma RevocationStable(c: Config, s: State, t: State, f: Uuid)
    requires Grows(s, t) && f in s.revocations && RevocationOk(c, s, f)
    requires f in t.kv.revoked || f !in s.kv.revoked
    ensures f in t.revocations && RevocationOk(c, t, f)
  {
  }

  // Events that write no marker and expire none.
  lemma MarkersFrame(c: Config, s: State, t: State)
    requires MarkersInv(c, s) && Grows(s, t)
    requires t.kv.revoked == s.kv.revoked && t.revocations == s.revocations
    ensures MarkersInv(c, t)
  {
    forall f {:trigger MarkerOk(t, f)} | f in t.kv.revoked ensures MarkerOk(t, f) {
      assert MarkerOk(s, f);
    }
    forall f {:trigger RevocationOk(c, t, f)} | f in t.revocations ensures RevocationOk(c, t, f) {
      RevocationStable(c, s, t, f);
    }
  }

  ghost predicate OnlyRequestMoves(s: State, t: State, r: nat) {
    forall q {:trigger t.requests[q]} :: q in t.requests && q != r ==> q in s.requests && t.requests[q] == s.requests[q]
  }

  lemma RequestsFrame(c: Config, s: State, t: State, r: nat)
    requires RequestsInv(c, s) && Grows(s, t) && OnlyRequestMoves(s, t, r)
    requires r in t.requests ==> RequestOk(c, t, r)
    requires forall x :: x in t.created && x !in s.created ==> x in s.minted && s.minted[x].owner == r
    ensures RequestsInv(c, t)
  {
    forall q {:trigger RequestOk(c, t, q)} | q in t.requests ensures RequestOk(c, t, q) {
      if q != r {
        assert RequestOk(c, s, q);
        OtherRequestStable(c, s, t, q);
      }
    }
  }

  ghost predicate SameApplied(s: State, t: State) {
    forall r {:trigger t.requests[r]} :: r in s.requests && r in t.requests ==>
      t.requests[r].applied == s.requests[r].applied
  }

  // Events that apply no conditional write; a token they mint is alone on its line, or not on it yet.
  lemma LineFrame(c: Config, s: State, t: State)
    requires TokensInv(c, s) && LineOk(s) && Grows(s, t) && SameApplied(s, t)
    requires forall x :: x in t.minted && x !in s.minted ==> t.minted[x].family !in s.families || !OnLine(t, x)
    requires forall x, y :: x in t.minted && x !in s.minted && y in t.minted && y !in s.minted ==> x == y
    ensures LineOk(t)
  {
    forall x | OnLine(t, x) && x in s.minted ensures OnLine(s, x) && s.minted[x].family in s.families {
      assert MintOk(c, s, x);
    }
  }

  // ---- The events ----

  // Events that mint nothing, leave the bucket alone and apply no conditional write.
  ghost predicate Quiet(s: State, t: State) {
    && t.kv == s.kv && t.minted == s.minted && t.families == s.families && t.accessTokens == s.accessTokens
    && t.created == s.created && t.spent == s.spent && t.written == s.written && t.revocations == s.revocations
    && SameApplied(s, t)
  }

  lemma QuietKeeps(c: Config, s: State, t: State, r: nat)
    requires Inv(c, s) && Grows(s, t) && Quiet(s, t) && OnlyRequestMoves(s, t, r)
    requires forall x {:trigger DeliveredOk(t, x)} :: x in t.delivered && x !in s.delivered ==> DeliveredOk(t, x)
    requires r in t.requests ==> RequestOk(c, t, r)
    ensures Inv(c, t)
  {
    TokensFrame(c, s, t);
    RowsFrame(c, s, t);
    MarkersFrame(c, s, t);
    RequestsFrame(c, s, t, r);
    LineFrame(c, s, t);
  }

  lemma WithGrows(s: State, u: State, r: nat, q: Request)
    requires Grows(s, u) && u.requests == s.requests
    requires r in s.requests ==> Later(s.requests[r], q)
    ensures Grows(s, With(u, r, q)) && OnlyRequestMoves(s, With(u, r, q), r)
  {
  }

  // Events that change one request and nothing else.
  lemma RequestKeeps(c: Config, s: State, r: nat, q: Request)
    requires Inv(c, s)
    requires r in s.requests ==> Later(s.requests[r], q) && q.applied == s.requests[r].applied
    requires RequestOk(c, With(s, r, q), r)
    ensures Inv(c, With(s, r, q))
    ensures Grows(s, With(s, r, q))
  {
    WithGrows(s, s, r, q);
    QuietKeeps(c, s, With(s, r, q), r);
  }

  lemma TickKeeps(c: Config, s: State, d: nat)
    requires Inv(c, s)
    ensures Inv(c, Apply(c, s, Tick(d)))
    ensures Grows(s, Apply(c, s, Tick(d)))
  {
    var t := Apply(c, s, Tick(d));
    assert Grows(s, t);
    forall r | r in t.requests ensures RequestOk(c, t, r) {
      assert RequestOk(c, s, r);
      OtherRequestStable(c, s, t, r);
    }
    QuietKeeps(c, s, t, 0);
  }

  lemma PresentKeeps(c: Config, s: State, r: nat, flow: Flow, id: Uuid)
    requires Inv(c, s) && Enabled(c, s, Present(r, flow, id))
    ensures Inv(c, PresentStep(s, r, flow, id))
    ensures Grows(s, PresentStep(s, r, flow, id))
  {
    RequestKeeps(c, s, r, PresentStep(s, r, flow, id).requests[r]);
  }

  lemma LookupKeeps(c: Config, s: State, r: nat, fault: Fault, version: Option<Entry<RefreshToken>>)
    requires Inv(c, s) && Enabled(c, s, Lookup(r, fault, version))
    ensures Inv(c, LookupStep(s, r, fault, version))
    ensures Grows(s, LookupStep(s, r, fault, version))
  {
    assert RequestOk(c, s, r);
    RequestKeeps(c, s, r, LookupStep(s, r, fault, version).requests[r]);
  }

  lemma CheckKeeps(c: Config, s: State, r: nat, fault: Fault)
    requires Inv(c, s) && Enabled(c, s, Check(r, fault))
    ensures Inv(c, CheckStep(s, r, fault))
    ensures Grows(s, CheckStep(s, r, fault))
  {
    assert RequestOk(c, s, r);
    RequestKeeps(c, s, r, CheckStep(s, r, fault).requests[r]);
  }

  lemma CrashKeeps(c: Config, s: State, r: nat)
    requires Inv(c, s) && Enabled(c, s, Crash(r))
    ensures Inv(c, Apply(c, s, Crash(r)))
    ensures Grows(s, Apply(c, s, Crash(r)))
  {
    assert RequestOk(c, s, r);
    RequestKeeps(c, s, r, Apply(c, s, Crash(r)).requests[r]);
  }

  lemma DeliveredNow(c: Config, s: State, r: nat)
    requires Inv(c, s) && Enabled(c, s, Deliver(r))
    ensures RequestOk(c, DeliverStep(s, r), r) && DeliveredOk(DeliverStep(s, r), s.requests[r].phase.successor.id)
  {
    assert RequestOk(c, s, r);
  }

  lemma DeliverShape(s: State, r: nat)
    requires r in s.requests && s.requests[r].phase.Committed?
    ensures var t := DeliverStep(s, r); Grows(s, t) && Quiet(s, t) && OnlyRequestMoves(s, t, r)
  {
  }

  lemma DeliverKeeps(c: Config, s: State, r: nat)
    requires Inv(c, s) && Enabled(c, s, Deliver(r))
    ensures Inv(c, DeliverStep(s, r))
    ensures Grows(s, DeliverStep(s, r))
  {
    DeliveredNow(c, s, r);
    DeliverShape(s, r);
    QuietKeeps(c, s, DeliverStep(s, r), r);
  }

  // Events that mint the token `id` and touch no store.
  ghost predicate TokenMinted(s: State, t: State, r: nat, id: Uuid) {
    && Grows(s, t) && OnlyRequestMoves(s, t, r) && SameApplied(s, t) && r in t.requests
    && t.kv == s.kv && t.created == s.created && t.spent == s.spent && t.written == s.written
    && t.revocations == s.revocations && t.delivered == s.delivered
    && id in t.minted && t.minted.Keys == s.minted.Keys + {id}
  }

  lemma MintingKeeps(c: Config, s: State, t: State, r: nat, id: Uuid)
    requires Inv(c, s) && TokenMinted(s, t, r, id) && MintOk(c, t, id) && RequestOk(c, t, r)
    requires forall f {:trigger FamilyOk(t, f)} :: f in t.families && f !in s.families ==> FamilyOk(t, f)
    requires forall a {:trigger AccessOk(c, t, a)} ::
      a in t.accessTokens && a !in s.accessTokens ==> AccessOk(c, t, a)
    requires t.minted[id].family !in s.families || !OnLine(t, id)
    ensures Inv(c, t)
  {
    TokensFrame(c, s, t);
    RowsFrame(c, s, t);
    MarkersFrame(c, s, t);
    RequestsFrame(c, s, t, r);
    LineFrame(c, s, t);
  }

  lemma NotCreated(c: Config, s: State, x: Uuid)
    requires Inv(c, s) && x !in s.minted
    ensures x !in s.created
  {
    assert x in s.created ==> CreatedOk(c, s, x);
  }

  lemma LoggedInNow(c: Config, s: State, r: nat, email: string, id: Uuid, family: Uuid)
    requires Inv(c, s) && Enabled(c, s, LogIn(r, email, id, family))
    ensures var t := LogInStep(c, s, r, email, id, family);
      MintOk(c, t, id) && FamilyOk(t, family) && RequestOk(c, t, r)
  {
    NotCreated(c, s, id);
  }

  lemma LogInShape(c: Config, s: State, r: nat, email: string, id: Uuid, family: Uuid)
    requires Enabled(c, s, LogIn(r, email, id, family))
    ensures var t := LogInStep(c, s, r, email, id, family);
      && TokenMinted(s, t, r, id) && t.minted[id].family == family
      && t.families.Keys == s.families.Keys + {family}
      && t.accessTokens == s.accessTokens + {AccessGrant(email, family, s.now, s.now + c.accessTtl)}
  {
  }

  lemma LogInKeeps(c: Config, s: State, r: nat, email: string, id: Uuid, family: Uuid)
    requires Inv(c, s) && Enabled(c, s, LogIn(r, email, id, family))
    ensures Inv(c, LogInStep(c, s, r, email, id, family))
    ensures Grows(s, LogInStep(c, s, r, email, id, family))
  {
    LoggedInNow(c, s, r, email, id, family);
    LogInShape(c, s, r, email, id, family);
    MintingKeeps(c, s, LogInStep(c, s, r, email, id, family), r, id);
  }

  lemma HeldRow(c: Config, s: State, x: Uuid, held: Entry<RefreshToken>)
    requires Inv(c, s) && HeldOk(s, x, held)
    ensures x in s.created && CreatedOk(c, s, x) && x in s.minted && MintOk(c, s, x)
    ensures held.value.familyId == s.minted[x].family && held.value.email == s.minted[x].sub
    ensures held.revision <= s.kv.last
    ensures held.value.usedAt.Some? <==> held != s.created[x]
    ensures held != s.created[x] ==> x in s.spent && held == s.spent[x]
  {
    assert WrittenOk(s, held) && CreatedOk(c, s, x) && MintOk(c, s, x);
    if x in s.spent { assert SpentOk(s, x); }
  }

  lemma SignedNow(c: Config, s: State, r: nat, id: Uuid)
    requires Inv(c, s) && Enabled(c, s, Sign(r, id))
    ensures var t := SignStep(c, s, r, id);
      && MintOk(c, t, id) && !OnLine(t, id) && RequestOk(c, t, r) && Later(s.requests[r], t.requests[r])
      && (forall a :: a in t.accessTokens && a !in s.accessTokens ==> AccessOk(c, t, a))
    ensures var m := s.minted[s.requests[r].jti];
      && m.family in s.families && s.families[m.family].email == m.sub
      && s.requests[r].phase.held.value.familyId == m.family
  {
    assert RequestOk(c, s, r);
    HeldRow(c, s, s.requests[r].jti, s.requests[r].phase.held);
    NotCreated(c, s, id);
  }

  lemma MintGrows(c: Config, s: State, r: nat, id: Uuid, email: string, family: Uuid)
    requires id !in s.minted
    ensures Grows(s, Mint(c, s, r, id, email, family))
  {
  }

  lemma SignShape(c: Config, s: State, r: nat, id: Uuid)
    requires Enabled(c, s, Sign(r, id)) && Later(s.requests[r], SignStep(c, s, r, id).requests[r])
    ensures TokenMinted(s, SignStep(c, s, r, id), r, id)
  {
    var email, family := s.minted[s.requests[r].jti].sub, s.requests[r].phase.held.value.familyId;
    MintGrows(c, s, r, id, email, family);
    WithGrows(s, Mint(c, s, r, id, email, family), r, SignStep(c, s, r, id).requests[r]);
  }

  lemma SignKeeps(c: Config, s: State, r: nat, id: Uuid)
    requires Inv(c, s) && Enabled(c, s, Sign(r, id))
    ensures Inv(c, SignStep(c, s, r, id))
    ensures Grows(s, SignStep(c, s, r, id))
  {
    SignedNow(c, s, r, id);
    SignShape(c, s, r, id);
    MintingKeeps(c, s, SignStep(c, s, r, id), r, id);
  }

  // ---- Writes to the bucket ----

  // Every row event writes or removes the one key `x`.
  ghost predicate OnlyRowMoves(s: State, t: State, x: Uuid) {
    && (forall y :: y in t.kv.tokens && y != x ==> y in s.kv.tokens && t.kv.tokens[y] == s.kv.tokens[y])
    && (forall y :: y in s.kv.tokens && y != x ==> y in t.kv.tokens)
    && (forall y :: y in t.created && y != x ==> y in s.created)
    && (forall y :: y in t.spent && y != x ==> y in s.spent)
  }

  lemma RowsMove(c: Config, s: State, t: State, x: Uuid)
    requires RowsInv(c, s) && Grows(s, t) && OnlyRowMoves(s, t, x)
    requires x in t.created ==> CreatedOk(c, t, x)
    requires x in t.spent ==> SpentOk(t, x)
    requires x in t.kv.tokens ==> TokenOk(t, x)
    requires forall e {:trigger WrittenOk(t, e)} :: e in t.written && e !in s.written ==> WrittenOk(t, e)
    ensures RowsInv(c, t)
  {
    forall y {:trigger CreatedOk(c, t, y)} | y in t.created ensures CreatedOk(c, t, y) {
      if y != x { assert CreatedOk(c, s, y); }
    }
    forall y {:trigger SpentOk(t, y)} | y in t.spent ensures SpentOk(t, y) {
      if y != x { SpentStable(s, t, y); }
    }
    forall e {:trigger WrittenOk(t, e)} | e in t.written ensures WrittenOk(t, e) {
      if e in s.written { WrittenStable(s, t, e); }
    }
    forall y {:trigger TokenOk(t, y)} | y in t.kv.tokens ensures TokenOk(t, y) {
      if y != x { assert TokenOk(s, y); }
    }
  }

  // A successor that has not been stored is nowhere in the bucket's history.
  lemma NotStored(c: Config, s: State, x: Uuid)
    requires Inv(c, s) && x !in s.created
    ensures x !in s.spent && x !in s.kv.tokens
  {
    assert x in s.spent ==> SpentOk(s, x);
    assert x in s.kv.tokens ==> TokenOk(s, x);
  }

  lemma StoredNow(c: Config, s: State, r: nat, fault: Fault)
    requires Inv(c, s) && Enabled(c, s, Put(r, fault)) && !fault.NotApplied?
    ensures var t, x := PutStep(s, r, fault), s.requests[r].phase.successor.id;
      && x !in s.created && x in s.minted && s.minted[x].owner == r
      && x in t.created && CreatedOk(c, t, x) && WrittenOk(t, t.created[x])
      && x in t.kv.tokens && TokenOk(t, x) && x !in t.spent
  {
    assert RequestOk(c, s, r);
    var x := s.requests[r].phase.successor.id;
    assert MintOk(c, s, x);
    NotStored(c, s, x);
  }

  lemma StorerNow(c: Config, s: State, r: nat, fault: Fault)
    requires Inv(c, s) && Enabled(c, s, Put(r, fault)) && !fault.NotApplied?
    ensures var t := PutStep(s, r, fault); RequestOk(c, t, r) && Later(s.requests[r], t.requests[r])
  {
    assert RequestOk(c, s, r);
    if s.requests[r].phase.Signed? { HeldRow(c, s, s.requests[r].jti, s.requests[r].phase.held); }
  }

  // Events that write the row of `x` and nothing else in the bucket.
  ghost predicate RowWritten(s: State, t: State, r: nat, x: Uuid) {
    && Grows(s, t) && OnlyRequestMoves(s, t, r) && OnlyRowMoves(s, t, x)
    && t.minted == s.minted && t.families == s.families && t.accessTokens == s.accessTokens
    && t.delivered == s.delivered
    && t.kv.revoked == s.kv.revoked && t.revocations == s.revocations
  }

  lemma WritingKeeps(c: Config, s: State, t: State, r: nat, x: Uuid)
    requires Inv(c, s) && RowWritten(s, t, r, x) && LineOk(t)
    requires x in t.created && CreatedOk(c, t, x) && (x in t.spent ==> SpentOk(t, x))
    requires x in t.kv.tokens && TokenOk(t, x)
    requires forall e {:trigger WrittenOk(t, e)} :: e in t.written && e !in s.written ==> WrittenOk(t, e)
    requires r in t.requests && RequestOk(c, t, r)
    requires x !in s.created ==> x in s.minted && s.minted[x].owner == r
    ensures Inv(c, t)
  {
    TokensFrame(c, s, t);
    RowsMove(c, s, t, x);
    MarkersFrame(c, s, t);
    RequestsFrame(c, s, t, r);
  }

  lemma PutShape(s: State, r: nat, fault: Fault)
    requires r in s.requests && (s.requests[r].phase.Opening? || s.requests[r].phase.Signed?) && !fault.NotApplied?
    requires s.requests[r].phase.successor.id !in s.created
    requires Later(s.requests[r], PutStep(s, r, fault).requests[r])
    ensures var t := PutStep(s, r, fault);
      RowWritten(s, t, r, s.requests[r].phase.successor.id) && t.spent == s.spent && SameApplied(s, t)
  {
    var t := PutStep(s, r, fault);
    WithGrows(s, t.(requests := s.requests), r, t.requests[r]);
  }

  lemma PutFailureKeeps(c: Config, s: State, r: nat)
    requires Inv(c, s) && Enabled(c, s, Put(r, NotApplied))
    ensures Inv(c, PutStep(s, r, NotApplied))
    ensures Grows(s, PutStep(s, r, NotApplied))
  {
    assert RequestOk(c, s, r);
    RequestKeeps(c, s, r, PutStep(s, r, NotApplied).requests[r]);
  }

  lemma PutWriteKeeps(c: Config, s: State, r: nat, fault: Fault)
    requires Inv(c, s) && Enabled(c, s, Put(r, fault)) && !fault.NotApplied?
    ensures Inv(c, PutStep(s, r, fault))
    ensures Grows(s, PutStep(s, r, fault))
  {
    var t := PutStep(s, r, fault);
    StoredNow(c, s, r, fault);
    StorerNow(c, s, r, fault);
    PutShape(s, r, fault);
    LineFrame(c, s, t);
    WritingKeeps(c, s, t, r, s.requests[r].phase.successor.id);
  }

  lemma PutKeeps(c: Config, s: State, r: nat, fault: Fault)
    requires Inv(c, s) && Enabled(c, s, Put(r, fault))
    ensures Inv(c, PutStep(s, r, fault))
    ensures Grows(s, PutStep(s, r, fault))
  {
    if fault.NotApplied? {
      PutFailureKeeps(c, s, r);
    } else {
      PutWriteKeeps(c, s, r, fault);
    }
  }

  // The compare-and-swap is accepted only on the row's first version, which then is its only one.
  lemma CasHitsFirstVersion(c: Config, s: State, r: nat)
    requires Inv(c, s) && r in s.requests && s.requests[r].phase.Stored?
    requires var held := s.requests[r].phase.held; RevisionMatches(s.kv, held.value.id, held.revision)
    ensures var x := s.requests[r].jti;
      x in s.created && s.requests[r].phase.held == s.created[x] && x !in s.spent
  {
    assert RequestOk(c, s, r);
    var x, held := s.requests[r].jti, s.requests[r].phase.held;
    HeldRow(c, s, x, held);
    assert TokenOk(s, x);
    assert x in s.spent ==> SpentOk(s, x);
  }

  // A refused compare-and-swap found the row spent or expired.
  lemma CasMiss(c: Config, s: State, r: nat)
    requires Inv(c, s) && r in s.requests && s.requests[r].phase.Stored?
    requires var held := s.requests[r].phase.held; !RevisionMatches(s.kv, held.value.id, held.revision)
    ensures var x := s.requests[r].jti;
      x in s.created && (x in s.spent || s.created[x].writtenAt + c.retention <= s.now)
  {
    assert RequestOk(c, s, r);
    var x, held := s.requests[r].jti, s.requests[r].phase.held;
    HeldRow(c, s, x, held);
    assert x in s.kv.tokens ==> TokenOk(s, x);
  }

  lemma SpentNow(c: Config, s: State, r: nat, fault: Fault)
    requires Inv(c, s) && Enabled(c, s, Cas(r, fault)) && !fault.NotApplied?
    requires var held := s.requests[r].phase.held; RevisionMatches(s.kv, held.value.id, held.revision)
    ensures var t, x := CasStep(s, r, fault), s.requests[r].jti;
      && x == s.requests[r].phase.held.value.id
      && x in s.created && x in t.created && CreatedOk(c, t, x) && x in t.spent && SpentOk(t, x)
      && x in t.kv.tokens && TokenOk(t, x) && WrittenOk(t, t.spent[x])
      && RequestOk(c, t, r) && Later(s.requests[r], t.requests[r]) && x !in s.spent
  {
    assert RequestOk(c, s, r);
    CasHitsFirstVersion(c, s, r);
    HeldRow(c, s, s.requests[r].jti, s.requests[r].phase.held);
    assert CreatedOk(c, s, s.requests[r].phase.successor.id);
  }

  lemma LineExtended(c: Config, s: State, t: State, r: nat, x: Uuid, y: Uuid)
    requires TokensInv(c, s) && LineOk(s) && Grows(s, t) && OnlyRequestMoves(s, t, r) && r in s.requests
    requires t.minted == s.minted && OnLine(s, x) && x !in s.spent && x in t.spent
    requires y in s.minted && s.minted[y].family == s.minted[x].family && s.requests[r].mints == Some(y)
    ensures LineOk(t)
  {
    forall z | OnLine(t, z) && z != y ensures OnLine(s, z) {
      assert MintOk(c, s, z);
    }
  }

  lemma CasShape(s: State, r: nat, fault: Fault)
    requires r in s.requests && s.requests[r].phase.Stored? && !fault.NotApplied?
    requires var held := s.requests[r].phase.held;
      RevisionMatches(s.kv, held.value.id, held.revision) && held.value.id !in s.spent
    requires Later(s.requests[r], CasStep(s, r, fault).requests[r])
    ensures var t, x := CasStep(s, r, fault), s.requests[r].phase.held.value.id;
      RowWritten(s, t, r, x) && x in t.spent && t.written == s.written + {t.spent[x]}
  {
    var t := CasStep(s, r, fault);
    WithGrows(s, t.(requests := s.requests), r, t.requests[r]);
  }

  lemma CasLine(c: Config, s: State, r: nat, fault: Fault)
    requires Inv(c, s) && Enabled(c, s, Cas(r, fault)) && !fault.NotApplied?
    requires var held := s.requests[r].phase.held; RevisionMatches(s.kv, held.value.id, held.revision)
    ensures LineOk(CasStep(s, r, fault))
  {
    var q := s.requests[r];
    SpentNow(c, s, r, fault);
    CasShape(s, r, fault);
    assert RequestOk(c, s, r);
    HeldRow(c, s, q.jti, q.phase.held);
    assert DeliveredOk(s, q.jti);
    LineExtended(c, s, CasStep(s, r, fault), r, q.jti, q.phase.successor.id);
  }

  lemma CasMissKeeps(c: Config, s: State, r: nat, fault: Fault)
    requires Inv(c, s) && Enabled(c, s, Cas(r, fault))
    requires var held := s.requests[r].phase.held;
      fault.NotApplied? || !RevisionMatches(s.kv, held.value.id, held.revision)
    ensures Inv(c, CasStep(s, r, fault))
    ensures Grows(s, CasStep(s, r, fault))
  {
    var held := s.requests[r].phase.held;
    assert RequestOk(c, s, r);
    if !RevisionMatches(s.kv, held.value.id, held.revision) { CasMiss(c, s, r); }
    RequestKeeps(c, s, r, CasStep(s, r, fault).requests[r]);
  }

  lemma CasHitKeeps(c: Config, s: State, r: nat, fault: Fault)
    requires Inv(c, s) && Enabled(c, s, Cas(r, fault)) && !fault.NotApplied?
    requires var held := s.requests[r].phase.held; RevisionMatches(s.kv, held.value.id, held.revision)
    ensures Inv(c, CasStep(s, r, fault))
    ensures Grows(s, CasStep(s, r, fault))
  {
    SpentNow(c, s, r, fault);
    CasShape(s, r, fault);
    CasLine(c, s, r, fault);
    WritingKeeps(c, s, CasStep(s, r, fault), r, s.requests[r].jti);
  }

  lemma CasKeeps(c: Config, s: State, r: nat, fault: Fault)
    requires Inv(c, s) && Enabled(c, s, Cas(r, fault))
    ensures Inv(c, CasStep(s, r, fault))
    ensures Grows(s, CasStep(s, r, fault))
  {
    var held := s.requests[r].phase.held;
    if fault.NotApplied? || !RevisionMatches(s.kv, held.value.id, held.revision) {
      CasMissKeeps(c, s, r, fault);
    } else {
      CasHitKeeps(c, s, r, fault);
    }
  }

  lemma RevokedNow(c: Config, s: State, r: nat, fault: Fault)
    requires Inv(c, s) && Enabled(c, s, Revoke(r, fault))
    ensures var t, q := RevokeStep(s, r, fault), s.requests[r];
      && !q.flow.Login? && q.jti in s.minted && RevocationTarget(q).value.familyId == s.minted[q.jti].family
      && RequestOk(c, t, r) && Later(q, t.requests[r]) && t.requests[r].applied == q.applied
      && t.requests[r].phase.Ended?
  {
    assert RequestOk(c, s, r);
    HeldRow(c, s, s.requests[r].jti, s.requests[r].phase.held);
  }

  lemma MarkersMove(c: Config, s: State, t: State, f: Uuid)
    requires MarkersInv(c, s) && Grows(s, t)
    requires forall g :: g in t.kv.revoked && g != f ==> g in s.kv.revoked && t.kv.revoked[g] == s.kv.revoked[g]
    requires forall g :: g in s.kv.revoked && g != f ==> g in t.kv.revoked
    requires forall g :: g in t.revocations && g != f ==> g in s.revocations
    requires f in t.kv.revoked ==> MarkerOk(t, f)
    requires f in t.revocations ==> RevocationOk(c, t, f)
    ensures MarkersInv(c, t)
  {
    forall g {:trigger MarkerOk(t, g)} | g in t.kv.revoked ensures MarkerOk(t, g) {
      if g != f { assert MarkerOk(s, g); }
    }
    forall g {:trigger RevocationOk(c, t, g)} | g in t.revocations ensures RevocationOk(c, t, g) {
      if g != f { RevocationStable(c, s, t, g); }
    }
  }

  // Events that write the marker of `f` and nothing else in the bucket.
  ghost predicate MarkerWritten(s: State, t: State, r: nat, f: Uuid) {
    && Grows(s, t) && OnlyRequestMoves(s, t, r) && SameApplied(s, t)
    && t.minted == s.minted && t.families == s.families && t.accessTokens == s.accessTokens
    && t.delivered == s.delivered
    && t.kv.tokens == s.kv.tokens && t.created == s.created && t.spent == s.spent && t.written == s.written
    && t.kv.revoked.Keys == s.kv.revoked.Keys + {f} && t.revocations.Keys == s.revocations.Keys + {f}
    && (forall g :: g in s.kv.revoked && g != f ==> t.kv.revoked[g] == s.kv.revoked[g])
  }

  lemma MarkingKeeps(c: Config, s: State, t: State, r: nat, f: Uuid)
    requires Inv(c, s) && MarkerWritten(s, t, r, f) && MarkerOk(t, f) && RevocationOk(c, t, f)
    requires r in t.requests && RequestOk(c, t, r)
    ensures Inv(c, t)
  {
    TokensFrame(c, s, t);
    RowsFrame(c, s, t);
    MarkersMove(c, s, t, f);
    RequestsFrame(c, s, t, r);
    LineFrame(c, s, t);
  }

  lemma RevokeShape(s: State, r: nat, fault: Fault)
    requires r in s.requests && RevocationTarget(s.requests[r]).Some? && !fault.NotApplied?
    requires var p := RevokeStep(s, r, fault).requests[r]; Later(s.requests[r], p) && p.applied == s.requests[r].applied
    ensures MarkerWritten(s, RevokeStep(s, r, fault), r, RevocationTarget(s.requests[r]).value.familyId)
  {
    var t := RevokeStep(s, r, fault);
    WithGrows(s, t.(requests := s.requests), r, t.requests[r]);
  }

  lemma RevokeMarker(c: Config, s: State, r: nat, fault: Fault)
    requires Inv(c, s) && Enabled(c, s, Revoke(r, fault)) && !fault.NotApplied?
    ensures var t, q := RevokeStep(s, r, fault), s.requests[r];
      q.jti in s.minted && var f := s.minted[q.jti].family;
      f in t.kv.revoked && f in t.revocations && MarkerOk(t, f) && RevocationOk(c, t, f)
  {
    var t, q := RevokeStep(s, r, fault), s.requests[r];
    RevokedNow(c, s, r, fault);
    RevokeShape(s, r, fault);
    var f := s.minted[q.jti].family;
    if f in s.revocations {
      assert RevocationOk(c, s, f);
      RevocationStable(c, s, t, f);
    }
  }

  lemma RevokeKeeps(c: Config, s: State, r: nat, fault: Fault)
    requires Inv(c, s) && Enabled(c, s, Revoke(r, fault))
    ensures Inv(c, RevokeStep(s, r, fault))
    ensures Grows(s, RevokeStep(s, r, fault))
  {
    var t := RevokeStep(s, r, fault);
    RevokedNow(c, s, r, fault);
    if fault.NotApplied? {
      RequestKeeps(c, s, r, t.requests[r]);
    } else {
      RevokeShape(s, r, fault);
      RevokeMarker(c, s, r, fault);
      MarkingKeeps(c, s, t, r, s.minted[s.requests[r].jti].family);
    }
  }

  lemma ExpiredNow(c: Config, s: State, id: Uuid)
    requires Inv(c, s) && Enabled(c, s, ExpireToken(id))
    ensures var t := Apply(c, s, ExpireToken(id));
      id in t.created && CreatedOk(c, t, id) && (id in t.spent ==> SpentOk(t, id))
  {
    assert TokenOk(s, id) && CreatedOk(c, s, id) && (id in s.spent ==> SpentOk(s, id));
  }

  lemma ExpireShape(c: Config, s: State, id: Uuid)
    requires Enabled(c, s, ExpireToken(id))
    ensures var t := Apply(c, s, ExpireToken(id)); Grows(s, t) && OnlyRowMoves(s, t, id) && SameApplied(s, t)
  {
  }

  lemma ExpireTokenKeeps(c: Config, s: State, id: Uuid)
    requires Inv(c, s) && Enabled(c, s, ExpireToken(id))
    ensures Inv(c, Apply(c, s, ExpireToken(id)))
    ensures Grows(s, Apply(c, s, ExpireToken(id)))
  {
    var t := Apply(c, s, ExpireToken(id));
    ExpiredNow(c, s, id);
    ExpireShape(c, s, id);
    TokensFrame(c, s, t);
    RowsMove(c, s, t, id);
    MarkersFrame(c, s, t);
    AllRequestsStable(c, s, t);
    LineFrame(c, s, t);
  }

  lemma ExpireMarkerKeeps(c: Config, s: State, family: Uuid)
    requires Inv(c, s) && Enabled(c, s, ExpireMarker(family))
    ensures Inv(c, Apply(c, s, ExpireMarker(family)))
    ensures Grows(s, Apply(c, s, ExpireMarker(family)))
  {
    var t := Apply(c, s, ExpireMarker(family));
    assert MarkerOk(s, family) && RevocationOk(c, s, family);
    assert Grows(s, t);
    TokensFrame(c, s, t);
    RowsFrame(c, s, t);
    MarkersMove(c, s, t, family);
    AllRequestsStable(c, s, t);
    LineFrame(c, s, t);
  }

  lemma AllRequestsStable(c: Config, s: State, t: State)
    requires RequestsInv(c, s) && Grows(s, t) && t.requests == s.requests && t.created == s.created
    ensures RequestsInv(c, t)
  {
    forall r {:trigger RequestOk(c, t, r)} | r in t.requests ensures RequestOk(c, t, r) {
      assert RequestOk(c, s, r);
      OtherRequestStable(c, s, t, r);
    }
  }

  lemma StepKeeps(c: Config, s: State, e: Event)
    requires Inv(c, s) && Enabled(c, s, e)
    ensures Inv(c, Apply(c, s, e))
    ensures Grows(s, Apply(c, s, e))
  {
    match e
    case Tick(seconds) => TickKeeps(c, s, seconds);
    case LogIn(r, email, id, family) => LogInKeeps(c, s, r, email, id, family);
    case Present(r, flow, id) => PresentKeeps(c, s, r, flow, id);
    case Lookup(r, fault, version) => LookupKeeps(c, s, r, fault, version);
    case Check(r, fault) => CheckKeeps(c, s, r, fault);
    case Sign(r, id) => SignKeeps(c, s, r, id);
    case Put(r, fault) => PutKeeps(c, s, r, fault);
    case Cas(r, fault) => CasKeeps(c, s, r, fault);
    case Revoke(r, fault) => RevokeKeeps(c, s, r, fault);
    case Deliver(r) => DeliverKeeps(c, s, r);
    case Crash(r) => CrashKeeps(c, s, r);
    case ExpireToken(id) => ExpireTokenKeeps(c, s, id);
    case ExpireMarker(family) => ExpireMarkerKeeps(c, s, family);
  }

  // The invariant holds throughout every run.
  lemma {:induction false} RunKeeps(c: Config, s: State, es: seq<Event>)
    requires Inv(c, s) && Legal(c, s, es)
    ensures Inv(c, After(c, s, es))
    decreases |es|
  {
    if es != [] {
      StepKeeps(c, s, es[0]);
      RunKeeps(c, Apply(c, s, es[0]), es[1..]);
    }
  }
}

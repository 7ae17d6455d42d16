/**
 Refresh-token rotation as a transition system: every key-value operation of every request is one
 event, any number of requests interleave, and the environment may fail, lose acknowledgements,
 serve old versions of a row, crash a request, and expire bucket entries.
 */
module Protocol {
  import opened Types
  import opened Kv

  // `retention` is the age the bucket guarantees to its entries: none is removed younger.
  datatype Config = Config(accessTtl: nat, refreshTtl: nat, retention: nat)

  // Which handler a request runs: /auth/token, /auth/refresh, the silent path of /auth/check, /auth/logout.
  datatype Flow = Login | Explicit | Silent | Logout

  datatype Outcome =
    | Issued(id: Uuid)     // cookies for this refresh token were handed out
    | Refused              // unknown, expired or revoked
    | ReuseDetected
    | StoreFailed
    | LoggedOut
    | Abandoned            // crashed, or failed in a step that touches no store

  datatype Phase =
    | Presented
    | Found(held: Entry<RefreshToken>)
    | Cleared(held: Entry<RefreshToken>)
    | Signed(held: Entry<RefreshToken>, successor: RefreshToken)
    | Stored(held: Entry<RefreshToken>, successor: RefreshToken)
    | Conflicted(held: Entry<RefreshToken>)
    | Opening(successor: RefreshToken)
    | Committed(successor: RefreshToken)
    | Ended(outcome: Outcome)

  // What `rotate` returned to this request.
  datatype Verdict = Pending | RotatedOk | Reuse | StoreError

  // A request: its program counter, and what happened to it so far.
  datatype Request = Request(
    flow: Flow,
    jti: Uuid,           // the presented token (for a login: the token it opens with)
    verifiedAt: nat,     // when its JWT was verified
    checkedAt: nat,      // when the revocation check answered
    readOk: bool,        // whether that check really read the bucket
    signedAt: nat,
    casAt: nat,
    mints: Option<Uuid>, // the token it signed
    applied: bool,       // its conditional write took effect
    recorded: bool,      // its revocation write took effect
    verdict: Verdict,
    phase: Phase)

  // A signed refresh JWT.
  datatype Claims = Claims(sub: string, family: Uuid, iat: nat, exp: nat, owner: nat)

  // A signed access JWT.
  datatype AccessGrant = AccessGrant(sub: string, family: Uuid, iat: nat, exp: nat)

  // The login that opened a family.
  datatype Opened = Opened(email: string, id: Uuid)

  // The first revocation write of a family that took effect.
  datatype Revocation = Revocation(at: nat, request: nat)

  // `kv`, `now` and the phases of `requests` are the system; the rest records the run.
  datatype State = State(
    now: nat,
    kv: Kv,
    requests: map<nat, Request>,
    minted: map<Uuid, Claims>,
    accessTokens: set<AccessGrant>,
    delivered: set<Uuid>,
    families: map<Uuid, Opened>,
    revocations: map<Uuid, Revocation>,
    written: set<Entry<RefreshToken>>,         // every version of every row ever written
    created: map<Uuid, Entry<RefreshToken>>,   // the last plain write of a row
    spent: map<Uuid, Entry<RefreshToken>>)     // the last conditional write of a row

  const INIT := State(0, EMPTY, map[], map[], {}, {}, map[], map[], {}, map[], map[])

  datatype Event =
    | Tick(seconds: nat)
    | LogIn(r: nat, email: string, id: Uuid, family: Uuid)
    | Present(r: nat, flow: Flow, id: Uuid)
    | Lookup(r: nat, fault: Fault, version: Option<Entry<RefreshToken>>)
    | Check(r: nat, fault: Fault)
    | Sign(r: nat, id: Uuid)
    | Put(r: nat, fault: Fault)
    | Cas(r: nat, fault: Fault)
    | Revoke(r: nat, fault: Fault)
    | Deliver(r: nat)
    | Crash(r: nat)
    | ExpireToken(id: Uuid)
    | ExpireMarker(family: Uuid)

  // The row whose family the next revocation write of this request names, if it is to write one.
  function RevocationTarget(q: Request): Option<RefreshToken> {
    match q.phase
    case Found(held) => if q.flow.Logout? then Some(held.value) else None
    case Signed(held, _) => if held.value.usedAt.Some? then Some(held.value) else None
    case Conflicted(held) => Some(held.value)
    case _ => None
  }

  predicate Enabled(c: Config, s: State, e: Event) {
    match e
    case Tick(_) => true
    case LogIn(r, email, id, family) =>
      r !in s.requests && email != "" && id !in s.minted && family !in s.families
    case Present(r, flow, id) =>
      r !in s.requests && !flow.Login? && id in s.delivered && id in s.minted
    case Lookup(r, _, version) =>
      && r in s.requests && s.requests[r].phase.Presented?
      && (version.Some? ==> version.value in s.written && version.value.value.id == s.requests[r].jti)
    case Check(r, _) =>
      r in s.requests && s.requests[r].phase.Found? && !s.requests[r].flow.Logout?
    case Sign(r, id) =>
      r in s.requests && s.requests[r].phase.Cleared? && id !in s.minted && s.requests[r].jti in s.minted
    case Put(r, _) =>
      && r in s.requests
      && (s.requests[r].phase.Opening? ||
          (s.requests[r].phase.Signed? && s.requests[r].phase.held.value.usedAt.None?))
    case Cas(r, _) => r in s.requests && s.requests[r].phase.Stored?
    case Revoke(r, _) => r in s.requests && RevocationTarget(s.requests[r]).Some?
    case Deliver(r) => r in s.requests && s.requests[r].phase.Committed?
    case Crash(r) => r in s.requests && !s.requests[r].phase.Ended?
    case ExpireToken(id) => id in s.kv.tokens && s.kv.tokens[id].writtenAt + c.retention <= s.now
    case ExpireMarker(family) => family in s.kv.revoked && s.kv.revoked[family].writtenAt + c.retention <= s.now
  }

  function With(s: State, r: nat, q: Request): State {
    s.(requests := s.requests[r := q])
  }

  // `sign_access_token` and `sign_refresh_token` for one request, at one clock reading.
  function Mint(c: Config, s: State, r: nat, id: Uuid, email: string, family: Uuid): State {
    s.(minted := s.minted[id := Claims(email, family, s.now, s.now + c.refreshTtl, r)],
       accessTokens := s.accessTokens + {AccessGrant(email, family, s.now, s.now + c.accessTtl)})
  }

  // The row both handlers build for a token they just signed.
  function FreshRow(id: Uuid, email: string, family: Uuid, now: nat): RefreshToken {
    RefreshToken(id, email, family, None, None, now)
  }

  function LogInStep(c: Config, s: State, r: nat, email: string, id: Uuid, family: Uuid): State {
    var q := Request(Login, id, s.now, s.now, true, s.now, s.now, Some(id), false, false, Pending,
                     Opening(FreshRow(id, email, family, s.now)));
    var s1 := Mint(c, s, r, id, email, family);
    With(s1.(families := s1.families[family := Opened(email, id)]), r, q)
  }

  function PresentStep(s: State, r: nat, flow: Flow, id: Uuid): State
    requires id in s.minted
  {
    var phase := if Unexpired(s.minted[id].exp, s.now) then Presented else Ended(Refused);
    With(s, r, Request(flow, id, s.now, s.now, true, s.now, s.now, None, false, false, Pending, phase))
  }

  // `find_by_id`: an error, no row, or some version of the row.
  function LookupStep(s: State, r: nat, fault: Fault, version: Option<Entry<RefreshToken>>): State
    requires r in s.requests
  {
    var q := s.requests[r];
    With(s, r, q.(phase :=
      if !fault.Ack? then Ended(StoreFailed)
      else if version.None? then Ended(Refused)
      else Found(version.value)))
  }

  // `is_family_revoked`: an error on the read answers "not revoked".
  function CheckStep(s: State, r: nat, fault: Fault): State
    requires r in s.requests && s.requests[r].phase.Found?
  {
    var q := s.requests[r];
    var revoked := fault.Ack? && q.phase.held.value.familyId in s.kv.revoked;
    With(s, r, q.(checkedAt := s.now, readOk := fault.Ack?,
                  phase := if revoked then Ended(Refused) else Cleared(q.phase.held)))
  }

  function SignStep(c: Config, s: State, r: nat, id: Uuid): State
    requires r in s.requests && s.requests[r].phase.Cleared? && s.requests[r].jti in s.minted
  {
    var q := s.requests[r];
    var email := s.minted[q.jti].sub;
    var family := q.phase.held.value.familyId;
    With(Mint(c, s, r, id, email, family), r,
         q.(signedAt := s.now, mints := Some(id), phase := Signed(q.phase.held, FreshRow(id, email, family, s.now))))
  }

  // `store`.
  function PutStep(s: State, r: nat, fault: Fault): State
    requires r in s.requests && (s.requests[r].phase.Opening? || s.requests[r].phase.Signed?)
  {
    var q := s.requests[r];
    var successor := q.phase.successor;
    var entry := Entry(successor, s.kv.last + 1, s.now);
    var s1 := if fault.NotApplied? then s else
      s.(kv := PutToken(s.kv, successor, s.now), written := s.written + {entry},
         created := s.created[successor.id := entry]);
    With(s1, r,
         if !fault.Ack? then
           q.(verdict := if q.phase.Signed? then StoreError else q.verdict, phase := Ended(StoreFailed))
         else if q.phase.Opening? then q.(phase := Committed(successor))
         else q.(phase := Stored(q.phase.held, successor)))
  }

  // What a request makes of its conditional write: a reported conflict is told apart from any other error.
  function CasAnswer(q: Request, now: nat, hit: bool, fault: Fault): Request
    requires q.phase.Stored?
  {
    var held, successor := q.phase.held, q.phase.successor;
    if !hit && fault.Ack? then q.(casAt := now, phase := Conflicted(held))
    else if hit && fault.Ack? then
      q.(casAt := now, applied := true, verdict := RotatedOk, phase := Committed(successor))
    else q.(casAt := now, applied := hit && fault.LostAck?, verdict := StoreError, phase := Ended(StoreFailed))
  }

  // `mark_used`.
  function CasStep(s: State, r: nat, fault: Fault): State
    requires r in s.requests && s.requests[r].phase.Stored?
  {
    var q := s.requests[r];
    var held := q.phase.held;
    var hit := RevisionMatches(s.kv, held.value.id, held.revision);
    var row := Used(held.value, q.phase.successor.id, s.now);
    var entry := Entry(row, s.kv.last + 1, s.now);
    var s1 := if !hit || fault.NotApplied? then s else
      s.(kv := PutToken(s.kv, row, s.now), written := s.written + {entry}, spent := s.spent[row.id := entry]);
    With(s1, r, CasAnswer(q, s.now, hit, fault))
  }

  // `revoke_family`, from `rotate` or from logout; a failure is only logged.
  function RevokeStep(s: State, r: nat, fault: Fault): State
    requires r in s.requests && RevocationTarget(s.requests[r]).Some?
  {
    var q := s.requests[r];
    var family := RevocationTarget(q).value.familyId;
    var s1 := if fault.NotApplied? then s else
      s.(kv := PutRevoked(s.kv, family, s.now),
         revocations := if family in s.revocations then s.revocations
                        else s.revocations[family := Revocation(s.now, r)]);
    With(s1, r, q.(recorded := !fault.NotApplied?,
                   verdict := if q.flow.Logout? then q.verdict else Reuse,
                   phase := Ended(if q.flow.Logout? then LoggedOut else ReuseDetected)))
  }

  // The response that sets the access and refresh cookies.
  function DeliverStep(s: State, r: nat): State
    requires r in s.requests && s.requests[r].phase.Committed?
  {
    var id := s.requests[r].phase.successor.id;
    With(s.(delivered := s.delivered + {id}), r, s.requests[r].(phase := Ended(Issued(id))))
  }

  function Apply(c: Config, s: State, e: Event): State
    requires Enabled(c, s, e)
  {
    match e
    case Tick(seconds) => s.(now := s.now + seconds)
    case LogIn(r, email, id, family) => LogInStep(c, s, r, email, id, family)
    case Present(r, flow, id) => PresentStep(s, r, flow, id)
    case Lookup(r, fault, version) => LookupStep(s, r, fault, version)
    case Check(r, fault) => CheckStep(s, r, fault)
    case Sign(r, id) => SignStep(c, s, r, id)
    case Put(r, fault) => PutStep(s, r, fault)
    case Cas(r, fault) => CasStep(s, r, fault)
    case Revoke(r, fault) => RevokeStep(s, r, fault)
    case Deliver(r) => DeliverStep(s, r)
    case Crash(r) => With(s, r, s.requests[r].(phase := Ended(Abandoned)))
    case ExpireToken(id) => s.(kv := s.kv.(tokens := s.kv.tokens - {id}))
    case ExpireMarker(family) => s.(kv := s.kv.(revoked := s.kv.revoked - {family}))
  }

  // Whether a list of events can happen from a state, and where it leads.
  ghost predicate Legal(c: Config, s: State, es: seq<Event>)
    decreases |es|
  {
    es == [] || (Enabled(c, s, es[0]) && Legal(c, Apply(c, s, es[0]), es[1..]))
  }

  ghost function After(c: Config, s: State, es: seq<Event>): State
    requires Legal(c, s, es)
    decreases |es|
  {
    if es == [] then s else After(c, Apply(c, s, es[0]), es[1..])
  }

  // Some legal run leads from s to t.
  ghost predicate Leads(c: Config, s: State, t: State) {
    exists es :: Legal(c, s, es) && After(c, s, es) == t
  }

  ghost predicate Reachable(c: Config, s: State) {
    Leads(c, INIT, s)
  }

  lemma {:induction false} RunExtends(c: Config, s: State, es: seq<Event>, e: Event)
    requires Legal(c, s, es) && Enabled(c, After(c, s, es), e)
    ensures Legal(c, s, es + [e]) && After(c, s, es + [e]) == Apply(c, After(c, s, es), e)
    decreases |es|
  {
    if es == [] {
      assert Legal(c, Apply(c, s, e), []);
      assert ([] + [e])[1..] == [];
    } else {
      assert (es + [e])[1..] == es[1..] + [e];
      RunExtends(c, Apply(c, s, es[0]), es[1..], e);
    }
  }

  lemma LeadsNowhere(c: Config, s: State)
    ensures Leads(c, s, s)
  {
    assert Legal(c, s, []) && After(c, s, []) == s;
  }

  lemma LeadsOn(c: Config, s: State, t: State, e: Event)
    requires Leads(c, s, t) && Enabled(c, t, e)
    ensures Leads(c, s, Apply(c, t, e))
  {
    var es :| Legal(c, s, es) && After(c, s, es) == t;
    RunExtends(c, s, es, e);
  }

  lemma {:induction false} RunContinues(c: Config, s0: State, s: State, es: seq<Event>)
    requires Leads(c, s0, s) && Legal(c, s, es)
    ensures Leads(c, s0, After(c, s, es))
    decreases |es|
  {
    if es != [] {
      LeadsOn(c, s0, s, es[0]);
      RunContinues(c, s0, Apply(c, s, es[0]), es[1..]);
    }
  }

  lemma LeadsThrough(c: Config, s: State, t: State, u: State)
    requires Leads(c, s, t) && Leads(c, t, u)
    ensures Leads(c, s, u)
  {
    var es :| Legal(c, t, es) && After(c, t, es) == u;
    RunContinues(c, s, t, es);
  }

  function Wait(s: State, d: nat): State { s.(now := s.now + d) }

  lemma Waits(c: Config, s0: State, s: State, d: nat)
    requires Leads(c, s0, s)
    ensures Leads(c, s0, Wait(s, d))
  {
    LeadsOn(c, s0, s, Tick(d));
  }

  lemma Signs(c: Config, s0: State, s: State, r: nat, id: Uuid)
    requires Leads(c, s0, s) && Enabled(c, s, Sign(r, id))
    ensures Leads(c, s0, SignStep(c, s, r, id))
  {
    LeadsOn(c, s0, s, Sign(r, id));
  }

  lemma Puts(c: Config, s0: State, s: State, r: nat, fault: Fault)
    requires Leads(c, s0, s) && Enabled(c, s, Put(r, fault))
    ensures Leads(c, s0, PutStep(s, r, fault))
  {
    LeadsOn(c, s0, s, Put(r, fault));
  }

  lemma Swaps(c: Config, s0: State, s: State, r: nat, fault: Fault)
    requires Leads(c, s0, s) && Enabled(c, s, Cas(r, fault))
    ensures Leads(c, s0, CasStep(s, r, fault))
  {
    LeadsOn(c, s0, s, Cas(r, fault));
  }

  lemma Revokes(c: Config, s0: State, s: State, r: nat, fault: Fault)
    requires Leads(c, s0, s) && Enabled(c, s, Revoke(r, fault))
    ensures Leads(c, s0, RevokeStep(s, r, fault))
  {
    LeadsOn(c, s0, s, Revoke(r, fault));
  }

  lemma Delivers(c: Config, s0: State, s: State, r: nat)
    requires Leads(c, s0, s) && Enabled(c, s, Deliver(r))
    ensures Leads(c, s0, DeliverStep(s, r))
  {
    LeadsOn(c, s0, s, Deliver(r));
  }

  lemma Checks(c: Config, s0: State, s: State, r: nat, fault: Fault)
    requires Leads(c, s0, s) && Enabled(c, s, Check(r, fault))
    ensures Leads(c, s0, CheckStep(s, r, fault))
  {
    LeadsOn(c, s0, s, Check(r, fault));
  }
}

/** The sequential code, run alone, is one run of the protocol: the link from `RefreshStore` to `Protocol`. */
module SequentialRun {
  import opened Types
  import opened Kv
  import opened Protocol
  import opened Invariant
  import Store = RefreshStore

  function WorldOf(s: State, faults: seq<Fault>): Store.World {
    Store.World(s.kv, s.now, faults)
  }

  // How `rotate` ended, as the verdict and phase of the request that called it.
  ghost predicate EndedAs(q: Request, successor: RefreshToken, result: Result<(), Store.RotationError>) {
    match result
    case Ok(_) => q.verdict.RotatedOk? && q.phase == Committed(successor)
    case Err(ReuseOf(_)) => q.verdict.Reuse? && q.phase == Ended(ReuseDetected)
    case Err(StoreFailure(_)) => q.verdict.StoreError? && q.phase == Ended(StoreFailed)
  }

  // Some run from s0 ends with this bucket, at this time, and with this answer for request r.
  ghost predicate RunsTo(c: Config, s0: State, kv: Kv, now: nat, r: nat, successor: RefreshToken,
                         result: Result<(), Store.RotationError>) {
    exists t :: Leads(c, s0, t) && t.kv == kv && t.now == now && r in t.requests
      && EndedAs(t.requests[r], successor, result)
  }

  lemma ConflictIsARun(c: Config, s0: State, s: State, r: nat, faults: seq<Fault>)
    requires Leads(c, s0, s) && r in s.requests && s.requests[r].phase.Conflicted? && !s.requests[r].flow.Logout?
    ensures var row := s.requests[r].phase.held.value;
      forall successor :: RunsTo(c, s0, Store.Revoked(WorldOf(s, faults), row.familyId).0.kv, s.now, r, successor,
                                 Err(Store.ReuseOf(row.familyId)))
  {
    var fate, row := Store.Fate(faults), s.requests[r].phase.held.value;
    Revokes(c, s0, s, r, fate);
    var t := RevokeStep(s, r, fate);
    forall successor
      ensures RunsTo(c, s0, Store.Revoked(WorldOf(s, faults), row.familyId).0.kv, s.now, r, successor,
                     Err(Store.ReuseOf(row.familyId)))
    {
      assert EndedAs(t.requests[r], successor, Err(Store.ReuseOf(row.familyId)));
    }
  }

  lemma CasHits(s: State, r: nat, fate: Fault)
    requires r in s.requests && s.requests[r].phase.Stored?
    requires var held := s.requests[r].phase.held; RevisionMatches(s.kv, held.value.id, held.revision)
    ensures var t, q := CasStep(s, r, fate), s.requests[r];
      && t.now == s.now && r in t.requests
      && t.kv == (if fate.NotApplied? then s.kv
                  else PutToken(s.kv, Used(q.phase.held.value, q.phase.successor.id, s.now), s.now))
      && EndedAs(t.requests[r], q.phase.successor, if fate.Ack? then Ok(()) else Err(Store.StoreFailure(Store.KvError)))
  {
  }

  lemma HitIsARun(c: Config, s0: State, s: State, r: nat, faults: seq<Fault>)
    requires Leads(c, s0, s) && r in s.requests && s.requests[r].phase.Stored?
    requires var held := s.requests[r].phase.held; RevisionMatches(s.kv, held.value.id, held.revision)
    ensures var q := s.requests[r];
      var (w, stored) := Store.Stored(WorldOf(s, faults), Used(q.phase.held.value, q.phase.successor.id, s.now));
      RunsTo(c, s0, w.kv, s.now, r, q.phase.successor,
             if stored.Ok? then Ok(()) else Err(Store.StoreFailure(Store.KvError)))
  {
    var q, fate := s.requests[r], Store.Fate(faults);
    Swaps(c, s0, s, r, fate);
    CasHits(s, r, fate);
  }

  lemma MissIsARun(c: Config, s0: State, s: State, r: nat, faults: seq<Fault>)
    requires Leads(c, s0, s) && r in s.requests && s.requests[r].phase.Stored? && !s.requests[r].flow.Logout?
    requires var held := s.requests[r].phase.held; !RevisionMatches(s.kv, held.value.id, held.revision)
    ensures var q, w := s.requests[r], WorldOf(s, Store.Rest(faults));
      var family := q.phase.held.value.familyId;
      if Store.Fate(faults).Ack? then
        RunsTo(c, s0, Store.Revoked(w, family).0.kv, s.now, r, q.phase.successor, Err(Store.ReuseOf(family)))
      else
        RunsTo(c, s0, s.kv, s.now, r, q.phase.successor, Err(Store.StoreFailure(Store.KvError)))
  {
    var q, fate := s.requests[r], Store.Fate(faults);
    Swaps(c, s0, s, r, fate);
    var t := CasStep(s, r, fate);
    if fate.Ack? {
      ConflictIsARun(c, s0, t, r, Store.Rest(faults));
      assert WorldOf(t, Store.Rest(faults)) == WorldOf(s, Store.Rest(faults));
    } else {
      assert EndedAs(t.requests[r], q.phase.successor, Err(Store.StoreFailure(Store.KvError)));
    }
  }

  // The compare-and-swap and what follows it.
  lemma MarkIsARun(c: Config, s0: State, s: State, r: nat, faults: seq<Fault>)
    requires Leads(c, s0, s) && r in s.requests && s.requests[r].phase.Stored? && !s.requests[r].flow.Logout?
    ensures var q, w := s.requests[r], WorldOf(s, faults);
      var row := q.phase.held.value;
      var (w1, marked) := Store.MarkedUsed(w, row, q.phase.successor.id, q.phase.held.revision);
      if marked.Ok? then RunsTo(c, s0, w1.kv, s.now, r, q.phase.successor, Ok(()))
      else if marked.error.Conflict? then
        RunsTo(c, s0, Store.Revoked(w1, row.familyId).0.kv, s.now, r, q.phase.successor,
               Err(Store.ReuseOf(row.familyId)))
      else RunsTo(c, s0, w1.kv, s.now, r, q.phase.successor, Err(Store.StoreFailure(marked.error)))
  {
    var held := s.requests[r].phase.held;
    if RevisionMatches(s.kv, held.value.id, held.revision) {
      HitIsARun(c, s0, s, r, faults);
    } else {
      MissIsARun(c, s0, s, r, faults);
    }
  }

  lemma PutStores(s: State, r: nat, faults: seq<Fault>)
    requires r in s.requests && s.requests[r].phase.Signed?
    ensures var q, t := s.requests[r], PutStep(s, r, Store.Fate(faults));
      && WorldOf(t, Store.Rest(faults)) == Store.Stored(WorldOf(s, faults), q.phase.successor).0
      && r in t.requests
      && (if Store.Fate(faults).Ack? then t.requests[r] == q.(phase := Stored(q.phase.held, q.phase.successor))
          else EndedAs(t.requests[r], q.phase.successor, Err(Store.StoreFailure(Store.KvError))))
  {
  }

  lemma StoreAndMarkIsARun(c: Config, s: State, r: nat, faults: seq<Fault>)
    requires r in s.requests && s.requests[r].phase.Signed? && s.requests[r].phase.held.value.usedAt.None?
    requires !s.requests[r].flow.Logout?
    ensures var q := s.requests[r];
      var (w, result) := Store.Rotated(WorldOf(s, faults), q.phase.held.value, q.phase.held.revision,
                                       q.phase.successor);
      RunsTo(c, s, w.kv, s.now, r, q.phase.successor, result)
  {
    var q, fate := s.requests[r], Store.Fate(faults);
    LeadsNowhere(c, s);
    Puts(c, s, s, r, fate);
    var s1 := PutStep(s, r, fate);
    PutStores(s, r, faults);
    if fate.Ack? {
      MarkIsARun(c, s, s1, r, Store.Rest(faults));
    }
  }

  // Whatever the fates of its operations, and however old the version it holds, a `Rotate` that
  // nothing interleaves with is a run of Put, Cas and Revoke events with the same bucket and answer.
  lemma RotateIsARun(c: Config, s: State, r: nat, faults: seq<Fault>)
    requires Inv(c, s) && r in s.requests && s.requests[r].phase.Signed?
    ensures var q := s.requests[r];
      var (w, result) := Store.Rotated(WorldOf(s, faults), q.phase.held.value, q.phase.held.revision,
                                       q.phase.successor);
      RunsTo(c, s, w.kv, s.now, r, q.phase.successor, result)
  {
    var q := s.requests[r];
    assert RequestOk(c, s, r);
    if q.phase.held.value.usedAt.Some? {
      LeadsNowhere(c, s);
      Revokes(c, s, s, r, Store.Fate(faults));
      assert EndedAs(RevokeStep(s, r, Store.Fate(faults)).requests[r], q.phase.successor,
                     Err(Store.ReuseOf(q.phase.held.value.familyId)));
    } else {
      StoreAndMarkIsARun(c, s, r, faults);
    }
  }
}

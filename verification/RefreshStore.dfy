/**
 The store of refresh tokens and revocation markers: two key prefixes in one bucket with one
 revision counter. Proved to behave as two independent maps, and `Rotate` on top of it.
 */
module RefreshStore {
  import opened Types
  import opened Kv
  import opened UuidText

  const REFRESH_PREFIX := "refresh."
  const REVOKED_PREFIX := "revoked."

  function RefreshKey(id: Uuid): string { REFRESH_PREFIX + Hyphenated(id) }

  function RevokedKey(family: Uuid): string { REVOKED_PREFIX + Hyphenated(family) }

  datatype Value = TokenValue(token: RefreshToken) | MarkerValue(marker: RevokedFamily)

  datatype Cell = Cell(value: Value, revision: nat, writtenAt: nat)

  // ---- Keys ----

  lemma HyphenatedInjective(a: Uuid, b: Uuid)
    requires IsUuid(a) && IsUuid(b) && Hyphenated(a) == Hyphenated(b)
    ensures a == b
  {
    UuidRoundTrip(a);
    UuidRoundTrip(b);
  }

  // Distinct ids have distinct keys, and no token key is a marker key.
  lemma KeysApart(a: Uuid, b: Uuid)
    requires IsUuid(a) && IsUuid(b)
    ensures RefreshKey(a) == RefreshKey(b) ==> a == b
    ensures RevokedKey(a) == RevokedKey(b) ==> a == b
    ensures RefreshKey(a) != RevokedKey(b)
    ensures "refresh." <= RefreshKey(a) && "revoked." <= RevokedKey(a)
  {
    assert RefreshKey(a)[|REFRESH_PREFIX|..] == Hyphenated(a) && RevokedKey(a)[|REVOKED_PREFIX|..] == Hyphenated(a);
    assert RefreshKey(b)[|REFRESH_PREFIX|..] == Hyphenated(b) && RevokedKey(b)[|REVOKED_PREFIX|..] == Hyphenated(b);
    if Hyphenated(a) == Hyphenated(b) { HyphenatedInjective(a, b); }
    assert RefreshKey(a)[2] == 'f' && RevokedKey(b)[2] == 'v';
  }

  // ---- One bucket is two maps ----

  predicate HoldsToken(bucket: map<string, Cell>, kv: Kv, id: Uuid) {
    if id in kv.tokens then
      RefreshKey(id) in bucket
      && bucket[RefreshKey(id)] == Cell(TokenValue(kv.tokens[id].value), kv.tokens[id].revision,
                                        kv.tokens[id].writtenAt)
    else RefreshKey(id) !in bucket
  }

  predicate HoldsMarker(bucket: map<string, Cell>, kv: Kv, f: Uuid) {
    if f in kv.revoked then
      RevokedKey(f) in bucket
      && bucket[RevokedKey(f)] == Cell(MarkerValue(kv.revoked[f].value), kv.revoked[f].revision,
                                       kv.revoked[f].writtenAt)
    else RevokedKey(f) !in bucket
  }

  ghost predicate Represents(bucket: map<string, Cell>, kv: Kv) {
    && (forall id {:trigger HoldsToken(bucket, kv, id)} :: IsUuid(id) ==> HoldsToken(bucket, kv, id))
    && (forall f {:trigger HoldsMarker(bucket, kv, f)} :: IsUuid(f) ==> HoldsMarker(bucket, kv, f))
  }

  // Rows sit under their own ids, and all ids are UUIDs.
  ghost predicate Typed(kv: Kv) {
    forall id :: id in kv.tokens ==> IsUuid(id) && kv.tokens[id].value.id == id && IsUuid(kv.tokens[id].value.familyId)
  }

  lemma PutTokenRefines(bucket: map<string, Cell>, kv: Kv, row: RefreshToken, now: nat)
    requires Represents(bucket, kv) && IsUuid(row.id)
    ensures Represents(bucket[RefreshKey(row.id) := Cell(TokenValue(row), kv.last + 1, now)], PutToken(kv, row, now))
  {
    var b, k := bucket[RefreshKey(row.id) := Cell(TokenValue(row), kv.last + 1, now)], PutToken(kv, row, now);
    forall id {:trigger HoldsToken(b, k, id)} | IsUuid(id) ensures HoldsToken(b, k, id) {
      assert HoldsToken(bucket, kv, id);
      KeysApart(id, row.id);
    }
    forall f {:trigger HoldsMarker(b, k, f)} | IsUuid(f) ensures HoldsMarker(b, k, f) {
      assert HoldsMarker(bucket, kv, f);
      KeysApart(row.id, f);
    }
  }

  lemma PutMarkerRefines(bucket: map<string, Cell>, kv: Kv, family: Uuid, now: nat)
    requires Represents(bucket, kv) && IsUuid(family)
    ensures Represents(bucket[RevokedKey(family) := Cell(MarkerValue(RevokedFamily(now)), kv.last + 1, now)],
                       PutRevoked(kv, family, now))
  {
    var b, k := bucket[RevokedKey(family) := Cell(MarkerValue(RevokedFamily(now)), kv.last + 1, now)],
      PutRevoked(kv, family, now);
    forall id {:trigger HoldsToken(b, k, id)} | IsUuid(id) ensures HoldsToken(b, k, id) {
      assert HoldsToken(bucket, kv, id);
      KeysApart(id, family);
    }
    forall f {:trigger HoldsMarker(b, k, f)} | IsUuid(f) ensures HoldsMarker(b, k, f) {
      assert HoldsMarker(bucket, kv, f);
      KeysApart(f, family);
    }
  }

  predicate CellMatches(bucket: map<string, Cell>, key: string, revision: nat) {
    key in bucket && bucket[key].revision == revision
  }

  // Markers share the revision counter with the rows, yet writing one decides no row's compare-and-swap.
  lemma MarkersNeverConflict(bucket: map<string, Cell>, cell: Cell, family: Uuid, id: Uuid, revision: nat)
    requires IsUuid(family) && IsUuid(id)
    ensures CellMatches(bucket[RevokedKey(family) := cell], RefreshKey(id), revision)
        <==> CellMatches(bucket, RefreshKey(id), revision)
  {
    KeysApart(id, family);
  }

  // ---- What each operation does, under a given fate ----

  // The two maps, the clock, and how the environment will treat the coming operations
  // (`Ack` once the list is used up).
  datatype World = World(kv: Kv, now: nat, faults: seq<Fault>)

  datatype StoreError = KvError | Conflict(id: Uuid)

  datatype RotationError = ReuseOf(family: Uuid) | StoreFailure(error: StoreError)

  function Fate(faults: seq<Fault>): Fault {
    if faults == [] then Ack else faults[0]
  }

  function Rest(faults: seq<Fault>): seq<Fault> {
    if faults == [] then [] else faults[1..]
  }

  // The world after an operation that would leave the bucket as `kv`.
  function Applied(w: World, kv: Kv): World {
    World(if Fate(w.faults).NotApplied? then w.kv else kv, w.now, Rest(w.faults))
  }

  function Stored(w: World, row: RefreshToken): (World, Result<(), StoreError>) {
    (Applied(w, PutToken(w.kv, row, w.now)), if Fate(w.faults).Ack? then Ok(()) else Err(KvError))
  }

  function Found(w: World, id: Uuid): (World, Result<Option<Entry<RefreshToken>>, StoreError>) {
    (Applied(w, w.kv),
     if !Fate(w.faults).Ack? then Err(KvError)
     else if id in w.kv.tokens then Ok(Some(w.kv.tokens[id])) else Ok(None))
  }

  function MarkedUsed(w: World, row: RefreshToken, replacedBy: Uuid, revision: nat): (World, Result<(), StoreError>) {
    if RevisionMatches(w.kv, row.id, revision) then Stored(w, Used(row, replacedBy, w.now))
    else (Applied(w, w.kv), if Fate(w.faults).Ack? then Err(Conflict(row.id)) else Err(KvError))
  }

  function Revoked(w: World, family: Uuid): (World, Result<(), StoreError>) {
    (Applied(w, PutRevoked(w.kv, family, w.now)), if Fate(w.faults).Ack? then Ok(()) else Err(KvError))
  }

  function SaysRevoked(w: World, family: Uuid): (World, bool) {
    (Applied(w, w.kv), Fate(w.faults).Ack? && family in w.kv.revoked)
  }

  function Rotated(w: World, row: RefreshToken, revision: nat, successor: RefreshToken)
    : (World, Result<(), RotationError>)
  {
    if row.usedAt.Some? then (Revoked(w, row.familyId).0, Err(ReuseOf(row.familyId)))
    else
      var (w1, stored) := Stored(w, successor);
      if stored.Err? then (w1, Err(StoreFailure(stored.error)))
      else
        var (w2, marked) := MarkedUsed(w1, row, successor.id, revision);
        if marked.Ok? then (w2, Ok(()))
        else if marked.error.Conflict? then (Revoked(w2, row.familyId).0, Err(ReuseOf(row.familyId)))
        else (w2, Err(StoreFailure(marked.error)))
  }

  // ---- The store ----

  class RefreshTokenStore {
    var bucket: map<string, Cell>
    var last: nat          // the last revision assigned in the bucket
    var clock: nat
    var faults: seq<Fault>
    ghost var kv: Kv       // the two maps that the bucket stands for

    ghost predicate Valid()
      reads this
    {
      last == kv.last && Represents(bucket, kv) && Typed(kv)
    }

    ghost function View(): World
      reads this
    {
      World(kv, clock, faults)
    }

    constructor (clock: nat, faults: seq<Fault>)
      ensures Valid() && View() == World(EMPTY, clock, faults)
    {
      this.bucket, this.last, this.clock, this.faults, this.kv := map[], 0, clock, faults, EMPTY;
    }

    // The fate of the operation about to run.
    method NextFate() returns (fate: Fault)
      modifies this`faults
      ensures fate == Fate(old(faults)) && faults == Rest(old(faults))
    {
      fate := Ack;
      if faults != [] {
        fate, faults := faults[0], faults[1..];
      }
    }

    method Store(row: RefreshToken) returns (r: Result<(), StoreError>)
      requires Valid() && IsUuid(row.id) && IsUuid(row.familyId)
      modifies this
      ensures Valid() && (View(), r) == Stored(old(View()), row)
    {
      var fate := NextFate();
      if !fate.NotApplied? {
        PutTokenRefines(bucket, kv, row, clock);
        last := last + 1;
        bucket := bucket[RefreshKey(row.id) := Cell(TokenValue(row), last, clock)];
        kv := PutToken(kv, row, clock);
      }
      r := if fate.Ack? then Ok(()) else Err(KvError);
    }

    method FindById(id: Uuid) returns (r: Result<Option<Entry<RefreshToken>>, StoreError>)
      requires Valid() && IsUuid(id)
      modifies this`faults
      ensures Valid() && (View(), r) == Found(old(View()), id)
    {
      var fate := NextFate();
      var key := RefreshKey(id);
      assert HoldsToken(bucket, kv, id);
      if !fate.Ack? {
        r := Err(KvError);
      } else if key !in bucket {
        r := Ok(None);
      } else if bucket[key].value.TokenValue? {
        r := Ok(Some(Entry(bucket[key].value.token, bucket[key].revision, bucket[key].writtenAt)));
      } else {
        assert false;
      }
    }

    method MarkUsed(row: RefreshToken, replacedBy: Uuid, revision: nat) returns (r: Result<(), StoreError>)
      requires Valid() && IsUuid(row.id) && IsUuid(row.familyId)
      modifies this
      ensures Valid() && (View(), r) == MarkedUsed(old(View()), row, replacedBy, revision)
    {
      var key := RefreshKey(row.id);
      var token := row;
      token := token.(usedAt := Some(clock));
      token := token.(replacedBy := Some(replacedBy));
      var fate := NextFate();
      assert HoldsToken(bucket, kv, row.id);
      if key !in bucket || bucket[key].revision != revision {
        r := if fate.Ack? then Err(Conflict(row.id)) else Err(KvError);
        return;
      }
      if !fate.NotApplied? {
        PutTokenRefines(bucket, kv, token, clock);
        last := last + 1;
        bucket := bucket[key := Cell(TokenValue(token), last, clock)];
        kv := PutToken(kv, token, clock);
      }
      r := if fate.Ack? then Ok(()) else Err(KvError);
    }

    method RevokeFamily(family: Uuid) returns (r: Result<(), StoreError>)
      requires Valid() && IsUuid(family)
      modifies this
      ensures Valid() && (View(), r) == Revoked(old(View()), family)
    {
      var fate := NextFate();
      if !fate.NotApplied? {
        PutMarkerRefines(bucket, kv, family, clock);
        last := last + 1;
        bucket := bucket[RevokedKey(family) := Cell(MarkerValue(RevokedFamily(clock)), last, clock)];
        kv := PutRevoked(kv, family, clock);
      }
      r := if fate.Ack? then Ok(()) else Err(KvError);
    }

    // A read error answers "not revoked".
    method IsFamilyRevoked(family: Uuid) returns (revoked: bool)
      requires Valid() && IsUuid(family)
      modifies this`faults
      ensures Valid() && (View(), revoked) == SaysRevoked(old(View()), family)
    {
      var fate := NextFate();
      assert HoldsMarker(bucket, kv, family);
      revoked := fate.Ack? && RevokedKey(family) in bucket;
    }

    // `rotate`: store the successor, then mark the old row used; revoke the family on reuse.
    method Rotate(row: RefreshToken, revision: nat, successor: RefreshToken) returns (r: Result<(), RotationError>)
      requires Valid() && IsUuid(row.id) && IsUuid(row.familyId)
      requires IsUuid(successor.id) && IsUuid(successor.familyId)
      modifies this
      ensures Valid() && (View(), r) == Rotated(old(View()), row, revision, successor)
    {
      if row.usedAt.Some? {
        var _ := RevokeFamily(row.familyId);
        return Err(ReuseOf(row.familyId));
      }
      var stored := Store(successor);
      if stored.Err? {
        return Err(StoreFailure(stored.error));
      }
      var marked := MarkUsed(row, successor.id, revision);
      if marked.Ok? {
        return Ok(());
      }
      if marked.error.Conflict? {
        var _ := RevokeFamily(row.familyId);
        return Err(ReuseOf(row.familyId));
      }
      return Err(StoreFailure(marked.error));
    }
  }
}

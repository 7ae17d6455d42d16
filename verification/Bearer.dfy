/**
 The index of sealed bearer entries: published under a key derived from the token, sealed with the
 token as associated data, and resolved by opening what the shared bucket holds.
 The cipher is ideal (RFC 8439 section 2.8 idealised: a sealed value opens only under the key and
 associated data it was sealed with) and the hash `h` of a token is free of collisions.
 */
module Bearer {
  import opened Types

  datatype Actor = Human(id: Uuid) | Service(id: Uuid)

  datatype BearerEntry = BearerEntry(actor: Actor, tokenId: Uuid)

  datatype SealedBearer = SealedBearer(nonce: string, ciphertext: string)

  // What a sealed value holds: who sealed it, for which associated data, and the entry.
  datatype Sealing = Sealing(sealKey: nat, aad: string, entry: BearerEntry)

  const BEARER_TOKENS_KEY_PREFIX := "identity/bearer_tokens/"

  type Hash = string -> string

  ghost predicate CollisionFree(h: Hash) {
    forall a, b :: h(a) == h(b) ==> a == b
  }

  function BearerTokenKvKey(h: Hash, token: string): string {
    BEARER_TOKENS_KEY_PREFIX + h(token)
  }

  // The bucket, shared with writers outside this service, and all sealed values that exist.
  datatype World = World(cells: map<string, SealedBearer>, sealed: map<SealedBearer, Sealing>)

  function Seal(w: World, h: Hash, sealKey: nat, token: string, entry: BearerEntry, blob: SealedBearer): World {
    w.(sealed := w.sealed[blob := Sealing(sealKey, h(token), entry)])
  }

  function Open(w: World, h: Hash, sealKey: nat, token: string, blob: SealedBearer): Option<BearerEntry> {
    if blob in w.sealed && w.sealed[blob].sealKey == sealKey && w.sealed[blob].aad == h(token)
    then Some(w.sealed[blob].entry)
    else None
  }

  // A value that does not open counts as absent.
  function Resolve(w: World, h: Hash, sealKey: nat, token: string): Option<BearerEntry> {
    var key := BearerTokenKvKey(h, token);
    if key in w.cells then Open(w, h, sealKey, token, w.cells[key]) else None
  }

  // ---- What can happen to the index ----

  datatype Event =
    | PutBearer(token: string, entry: BearerEntry, blob: SealedBearer, fault: Fault)
    | DeleteBearer(token: string, fault: Fault)
    | SealElsewhere(sealKey: nat, token: string, entry: BearerEntry, blob: SealedBearer)
    | ForeignWrite(key: string, blob: SealedBearer)   // any value at any key: garbage, or a copy
    | ForeignDelete(key: string)

  // A random nonce makes every sealed value new.
  predicate Enabled(w: World, e: Event) {
    match e
    case PutBearer(_, _, blob, _) => blob !in w.sealed
    case SealElsewhere(_, _, _, blob) => blob !in w.sealed
    case _ => true
  }

  function Apply(h: Hash, sealKey: nat, w: World, e: Event): World {
    match e
    case PutBearer(token, entry, blob, fault) =>
      var s := Seal(w, h, sealKey, token, entry, blob);
      if fault.NotApplied? then s else s.(cells := s.cells[BearerTokenKvKey(h, token) := blob])
    case DeleteBearer(token, fault) =>
      if fault.NotApplied? then w else w.(cells := w.cells - {BearerTokenKvKey(h, token)})
    case SealElsewhere(k, token, entry, blob) => Seal(w, h, k, token, entry, blob)
    case ForeignWrite(key, blob) => w.(cells := w.cells[key := blob])
    case ForeignDelete(key) => w.(cells := w.cells - {key})
  }

  // ---- The publisher ----

  class BearerPublisher {
    var cells: map<string, SealedBearer>
    var sealed: map<SealedBearer, Sealing>
    const sealKey: nat
    const h: Hash

    constructor (h: Hash, sealKey: nat)
      ensures this.h == h && this.sealKey == sealKey && View() == World(map[], map[])
    {
      this.h, this.sealKey, this.cells, this.sealed := h, sealKey, map[], map[];
    }

    function View(): World
      reads this
    {
      World(cells, sealed)
    }

    // `blob` is what sealing yields; `fault` is how the environment treats the write.
    method Put(token: string, entry: BearerEntry, blob: SealedBearer, fault: Fault) returns (ok: bool)
      requires blob !in sealed
      modifies this
      ensures View() == Apply(h, sealKey, old(View()), PutBearer(token, entry, blob, fault))
      ensures ok == fault.Ack?
      ensures ok ==> Resolve(View(), h, sealKey, token) == Some(entry)
    {
      sealed := sealed[blob := Sealing(sealKey, h(token), entry)];
      var key := BearerTokenKvKey(h, token);
      if !fault.NotApplied? {
        cells := cells[key := blob];
      }
      ok := fault.Ack?;
    }

    method Delete(token: string, fault: Fault) returns (ok: bool)
      modifies this
      ensures View() == Apply(h, sealKey, old(View()), DeleteBearer(token, fault))
      ensures ok == fault.Ack?
      ensures ok ==> Resolve(View(), h, sealKey, token) == None
    {
      var key := BearerTokenKvKey(h, token);
      if !fault.NotApplied? {
        cells := cells - {key};
      }
      ok := fault.Ack?;
    }
  }

  // ---- The index agrees with a plain map ----

  ghost predicate Succeeds(e: Event) {
    (e.PutBearer? || e.DeleteBearer?) && e.fault.Ack?
  }

  function Recorded(m: map<string, BearerEntry>, e: Event): map<string, BearerEntry> {
    match e
    case PutBearer(token, entry, _, _) => m[token := entry]
    case DeleteBearer(token, _) => m - {token}
    case _ => m
  }

  ghost predicate Agrees(h: Hash, sealKey: nat, w: World, m: map<string, BearerEntry>) {
    forall token :: Resolve(w, h, sealKey, token) == if token in m then Some(m[token]) else None
  }

  lemma KeysApart(h: Hash, a: string, b: string)
    requires CollisionFree(h)
    ensures BearerTokenKvKey(h, a) == BearerTokenKvKey(h, b) ==> a == b
    ensures "identity/bearer_tokens/" <= BearerTokenKvKey(h, a)
  {
    assert BearerTokenKvKey(h, a)[|BEARER_TOKENS_KEY_PREFIX|..] == h(a);
    assert BearerTokenKvKey(h, b)[|BEARER_TOKENS_KEY_PREFIX|..] == h(b);
  }

  lemma StepAgrees(h: Hash, sealKey: nat, w: World, m: map<string, BearerEntry>, e: Event)
    requires CollisionFree(h) && Enabled(w, e) && Succeeds(e) && Agrees(h, sealKey, w, m) && AllSealed(w)
    ensures Agrees(h, sealKey, Apply(h, sealKey, w, e), Recorded(m, e)) && AllSealed(Apply(h, sealKey, w, e))
  {
    var w', m' := Apply(h, sealKey, w, e), Recorded(m, e);
    forall token ensures Resolve(w', h, sealKey, token) == if token in m' then Some(m'[token]) else None {
      assert Resolve(w, h, sealKey, token) == if token in m then Some(m[token]) else None;
      if BearerTokenKvKey(h, token) == BearerTokenKvKey(h, e.token) { KeysApart(h, token, e.token); }
    }
  }

  // Nothing but sealed values is in the bucket.
  ghost predicate AllSealed(w: World) {
    forall key :: key in w.cells ==> w.cells[key] in w.sealed
  }

  ghost predicate Legal(h: Hash, sealKey: nat, w: World, es: seq<Event>)
    decreases |es|
  {
    es == [] || (Enabled(w, es[0]) && Legal(h, sealKey, Apply(h, sealKey, w, es[0]), es[1..]))
  }

  function After(h: Hash, sealKey: nat, w: World, es: seq<Event>): World
    decreases |es|
  {
    if es == [] then w else After(h, sealKey, Apply(h, sealKey, w, es[0]), es[1..])
  }

  function AllRecorded(m: map<string, BearerEntry>, es: seq<Event>): map<string, BearerEntry>
    decreases |es|
  {
    if es == [] then m else AllRecorded(Recorded(m, es[0]), es[1..])
  }

  // After any sequence of successful puts and deletes, resolving a token gives the last entry put
  // for it and not deleted since.
  lemma {:induction false} IndexAgreesWithMap(h: Hash, sealKey: nat, w: World, m: map<string, BearerEntry>,
                                              es: seq<Event>)
    requires CollisionFree(h) && Legal(h, sealKey, w, es) && Agrees(h, sealKey, w, m) && AllSealed(w)
    requires forall e :: e in es ==> Succeeds(e)
    ensures Agrees(h, sealKey, After(h, sealKey, w, es), AllRecorded(m, es))
    decreases |es|
  {
    if es != [] {
      StepAgrees(h, sealKey, w, m, es[0]);
      IndexAgreesWithMap(h, sealKey, Apply(h, sealKey, w, es[0]), Recorded(m, es[0]), es[1..]);
    }
  }

  // ---- Sealed values stay bound to their token ----

  // The event seals this entry for this token under the service's key.
  ghost predicate Seals(e: Event, sealKey: nat, token: string, entry: BearerEntry) {
    match e
    case PutBearer(t, n, _, _) => t == token && n == entry
    case SealElsewhere(k, t, n, _) => k == sealKey && t == token && n == entry
    case _ => false
  }

  ghost predicate Sealed(w: World, h: Hash, sealKey: nat, token: string, entry: BearerEntry) {
    exists blob :: blob in w.sealed && w.sealed[blob] == Sealing(sealKey, h(token), entry)
  }

  lemma StepSeals(h: Hash, sealKey: nat, w: World, e: Event, token: string, entry: BearerEntry)
    requires CollisionFree(h) && Enabled(w, e) && Sealed(Apply(h, sealKey, w, e), h, sealKey, token, entry)
    ensures Sealed(w, h, sealKey, token, entry) || Seals(e, sealKey, token, entry)
  {
    var w' := Apply(h, sealKey, w, e);
    var blob :| blob in w'.sealed && w'.sealed[blob] == Sealing(sealKey, h(token), entry);
    assert blob in w.sealed ==> w.sealed[blob] == w'.sealed[blob];
  }

  lemma {:induction false} RunSeals(h: Hash, sealKey: nat, w: World, es: seq<Event>, token: string, entry: BearerEntry)
    requires CollisionFree(h) && Legal(h, sealKey, w, es) && Sealed(After(h, sealKey, w, es), h, sealKey, token, entry)
    ensures Sealed(w, h, sealKey, token, entry) || exists e :: e in es && Seals(e, sealKey, token, entry)
    decreases |es|
  {
    if es != [] {
      var w' := Apply(h, sealKey, w, es[0]);
      RunSeals(h, sealKey, w', es[1..], token, entry);
      if Sealed(w', h, sealKey, token, entry) {
        StepSeals(h, sealKey, w, es[0], token, entry);
        assert es[0] in es;
      } else {
        var e :| e in es[1..] && Seals(e, sealKey, token, entry);
        assert e in es;
      }
    }
  }

  // Whatever else is written, copied or deleted in the shared bucket, a token resolves only to an
  // entry that was sealed for that very token under the service's key earlier in the run.
  lemma ResolvedWasSealed(h: Hash, sealKey: nat, es: seq<Event>, token: string, entry: BearerEntry)
    requires CollisionFree(h) && Legal(h, sealKey, World(map[], map[]), es)
    requires Resolve(After(h, sealKey, World(map[], map[]), es), h, sealKey, token) == Some(entry)
    ensures exists e :: e in es && Seals(e, sealKey, token, entry)
  {
    var w := After(h, sealKey, World(map[], map[]), es);
    assert Sealed(w, h, sealKey, token, entry) by {
      var blob := w.cells[BearerTokenKvKey(h, token)];
      assert blob in w.sealed && w.sealed[blob] == Sealing(sealKey, h(token), entry);
    }
    RunSeals(h, sealKey, World(map[], map[]), es, token, entry);
  }

  // "Earlier" is all that can be said: a copy of an old value, put back, resolves to the old entry
  // even after a successful delete.
  lemma OldCopyResolves(h: Hash, sealKey: nat, w: World, token: string, entry: BearerEntry, blob: SealedBearer)
    requires blob !in w.sealed
    ensures var es := [PutBearer(token, entry, blob, Ack), DeleteBearer(token, Ack),
                       ForeignWrite(BearerTokenKvKey(h, token), blob)];
      Legal(h, sealKey, w, es) && Resolve(After(h, sealKey, w, es), h, sealKey, token) == Some(entry)
  {
    var e1, e2, e3 := PutBearer(token, entry, blob, Ack), DeleteBearer(token, Ack),
      ForeignWrite(BearerTokenKvKey(h, token), blob);
    var w1 := Apply(h, sealKey, w, e1);
    var w2 := Apply(h, sealKey, w1, e2);
    assert [e1, e2, e3][1..] == [e2, e3] && [e2, e3][1..] == [e3] && [e3][1..] == [];
    assert Legal(h, sealKey, w2, [e3]);
    assert After(h, sealKey, w2, [e3]) == After(h, sealKey, Apply(h, sealKey, w2, e3), []);
    assert Legal(h, sealKey, w1, [e2, e3]) && After(h, sealKey, w1, [e2, e3]) == After(h, sealKey, w2, [e3]);
  }
}

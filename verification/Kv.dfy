/**
 The EPHEMERAL_AUTH bucket seen as two maps, token rows and revocation markers, that draw
 revisions from one counter. `RefreshStore` proves that the single bucket behaves this way.
 */
module Kv {
  import opened Types

  datatype Entry<+T> = Entry(value: T, revision: nat, writtenAt: nat)

  datatype Kv = Kv(
    tokens: map<Uuid, Entry<RefreshToken>>,
    revoked: map<Uuid, Entry<RevokedFamily>>,
    last: nat)

  const EMPTY := Kv(map[], map[], 0)

  // An unconditional write of a token row.
  function PutToken(kv: Kv, row: RefreshToken, now: nat): Kv {
    kv.(tokens := kv.tokens[row.id := Entry(row, kv.last + 1, now)], last := kv.last + 1)
  }

  // A conditional write is accepted exactly when the stored revision of that key is the given one.
  predicate RevisionMatches(kv: Kv, id: Uuid, revision: nat) {
    id in kv.tokens && kv.tokens[id].revision == revision
  }

  function PutRevoked(kv: Kv, family: Uuid, now: nat): Kv {
    kv.(revoked := kv.revoked[family := Entry(RevokedFamily(now), kv.last + 1, now)], last := kv.last + 1)
  }

  // The used copy of a row that `mark_used` writes.
  function Used(row: RefreshToken, replacedBy: Uuid, now: nat): RefreshToken {
    row.(usedAt := Some(now), replacedBy := Some(replacedBy))
  }
}

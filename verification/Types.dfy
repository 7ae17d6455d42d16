/** Values shared by every module: identifiers, rows and the small result types. */
module Types {

  // A 128-bit UUID, kept as its number. Fresh UUIDs never collide (a stated assumption of the model).
  type Uuid = nat

  datatype Option<+T> = None | Some(value: T)

  datatype Result<+T, +E> = Ok(value: T) | Err(error: E)

  // The row stored under `refresh.<id>`. Instants are whole seconds.
  datatype RefreshToken = RefreshToken(
    id: Uuid,
    email: string,
    familyId: Uuid,
    usedAt: Option<nat>,
    replacedBy: Option<Uuid>,
    createdAt: nat)

  // The marker stored under `revoked.<family>`.
  datatype RevokedFamily = RevokedFamily(revokedAt: nat)

  // How the environment treats one key-value operation: it is applied and acknowledged,
  // applied although the caller sees an error, or not applied at all.
  datatype Fault = Ack | LostAck | NotApplied

  // The seconds by which a verifier lets a token outlive its expiry.
  const CLOCK_SKEW_LEEWAY_SECS: nat := 5

  // A token verifies until its expiry plus the leeway, that last second included.
  predicate Unexpired(exp: nat, now: nat) {
    now <= exp + CLOCK_SKEW_LEEWAY_SECS
  }
}

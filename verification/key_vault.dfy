/**
  The protected key vault as the hardware presents it to the engines: a
  slot holds a secret together with the usage flags it was written with,
  an engine may read a slot only for a use those flags allow, and a write
  replaces exactly one slot.
 */
module KeyVault {
  import opened Types

  datatype Slot = Slot(secret: Secret, usage: set<UsageFlag>)

  type Vault = map<KeyId, Slot>

  /** The content of a slot; a slot never written holds nothing. */
  function Lookup(v: Vault, id: KeyId): Option<Slot>
  {
    if id in v then Some(v[id]) else None
  }

  /** An engine reading slot `id` for use `need`: refused unless the slot was
      written with that flag (a slot never written carries no flag). */
  function ReadAs(v: Vault, id: KeyId, need: UsageFlag): (r: Result<Secret>)
    ensures r.Ok? <==> Lookup(v, id).Some? && need in Lookup(v, id).value.usage
    ensures r.Ok? ==> r.value == Lookup(v, id).value.secret
    ensures r.Err? ==> r.error == KeyReadDenied(id, need)
  {
    if id in v && need in v[id].usage then Ok(v[id].secret)
    else Err(KeyReadDenied(id, need))
  }

  /** An engine writing its result into slot `id` with flags `usage`. */
  function Write(v: Vault, id: KeyId, secret: Secret, usage: set<UsageFlag>): (v': Vault)
    ensures Lookup(v', id) == Some(Slot(secret, usage))
    ensures SameExcept(v, v', {id})
  {
    v[id := Slot(secret, usage)]
  }

  /** Every slot outside `ids` has the same content in `v` and `v'`. */
  ghost predicate SameExcept(v: Vault, v': Vault, ids: set<KeyId>)
  {
    forall k :: k !in ids ==> Lookup(v', k) == Lookup(v, k)
  }
}

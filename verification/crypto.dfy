/**
  Crypto helper routines: the wrappers the DICE layer uses to hash, to derive
  a secret into a key-vault slot and to generate a key pair from a slot.
 */
module Crypto {
  import opened Types
  import opened KeyVault
  import opened FmcEnv

  /** `Array4x12::default()`: the all-zero nonce every key generation uses. */
  const ZeroNonce: Bytes48 := Zeros(48)

  /** SHA-256 of `data`; the vault is no input, so no slot can change. */
  function Sha256Digest(e: Engines, data: seq<byte>): (r: Result<Bytes32>)
    ensures r == e.sha256(data)
  {
    var digest :- e.sha256(data);
    Ok(digest)
  }

  /** HMAC-384 keyed by slot `key` over `data`; the tag goes into slot `tag`,
      usable afterwards as an HMAC key and as a key-generation seed. */
  function Hmac384Mac(e: Engines, v: Vault, key: KeyId, data: seq<byte>, tag: KeyId): (r: Result<(KeyId, Vault)>)
    ensures r.Ok? <==> ReadAs(v, key, HmacKey).Ok? && e.hmac384(Lookup(v, key).value.secret, data).Ok?
    ensures ReadAs(v, key, HmacKey).Err? ==> r == Err(KeyReadDenied(key, HmacKey))
    ensures ReadAs(v, key, HmacKey).Ok? && e.hmac384(Lookup(v, key).value.secret, data).Err? ==>
              r == Err(e.hmac384(Lookup(v, key).value.secret, data).error)
    ensures r.Ok? ==> r.value.0 == tag
    ensures r.Ok? ==>
              Lookup(r.value.1, tag) == Some(Slot(e.hmac384(Lookup(v, key).value.secret, data).value, {HmacKey, EccKeyGenSeed}))
    ensures r.Ok? ==> SameExcept(v, r.value.1, {tag})
  {
    var usage := {HmacKey, EccKeyGenSeed};
    var keySecret :- ReadAs(v, key, HmacKey);
    var mac :- e.hmac384(keySecret, data);
    Ok((tag, Write(v, tag, mac, usage)))
  }

  /** ECC-384 key generation seeded by slot `seed`; the private key goes into
      slot `privKey`, usable only as an ECC private key. */
  function Ecc384KeyGen(e: Engines, v: Vault, seed: KeyId, privKey: KeyId): (r: Result<(Ecc384KeyPair, Vault)>)
    ensures r.Ok? <==> ReadAs(v, seed, EccKeyGenSeed).Ok? && e.ecc384KeyPair(Lookup(v, seed).value.secret, Zeros(48)).Ok?
    ensures ReadAs(v, seed, EccKeyGenSeed).Err? ==> r == Err(KeyReadDenied(seed, EccKeyGenSeed))
    ensures ReadAs(v, seed, EccKeyGenSeed).Ok? && e.ecc384KeyPair(Lookup(v, seed).value.secret, Zeros(48)).Err? ==>
              r == Err(e.ecc384KeyPair(Lookup(v, seed).value.secret, Zeros(48)).error)
    ensures r.Ok? ==> r.value.0.privKey == privKey
    ensures r.Ok? ==> r.value.0.pubKey == e.ecc384KeyPair(Lookup(v, seed).value.secret, Zeros(48)).value.1
    ensures r.Ok? ==>
              Lookup(r.value.1, privKey) == Some(Slot(e.ecc384KeyPair(Lookup(v, seed).value.secret, Zeros(48)).value.0, {EccPrivateKey}))
    ensures r.Ok? ==> SameExcept(v, r.value.1, {privKey})
  {
    var seedSecret :- ReadAs(v, seed, EccKeyGenSeed);
    var usage := {EccPrivateKey};
    var pair :- e.ecc384KeyPair(seedSecret, ZeroNonce);
    Ok((Ecc384KeyPair(privKey, pair.1), Write(v, privKey, pair.0, usage)))
  }

  /** With no nonce injected, key generation depends on nothing but the seed
      slot: two vaults that agree on it give the same key pair, the same
      private-key slot and the same error. */
  lemma KeyGenDeterministic(e: Engines, v1: Vault, v2: Vault, seed: KeyId, privKey: KeyId)
    requires Lookup(v1, seed) == Lookup(v2, seed)
    ensures Ecc384KeyGen(e, v1, seed, privKey).Ok? <==> Ecc384KeyGen(e, v2, seed, privKey).Ok?
    ensures Ecc384KeyGen(e, v1, seed, privKey).Ok? ==>
              && Ecc384KeyGen(e, v1, seed, privKey).value.0 == Ecc384KeyGen(e, v2, seed, privKey).value.0
              && Lookup(Ecc384KeyGen(e, v1, seed, privKey).value.1, privKey) ==
                 Lookup(Ecc384KeyGen(e, v2, seed, privKey).value.1, privKey)
    ensures Ecc384KeyGen(e, v1, seed, privKey).Err? ==>
              Ecc384KeyGen(e, v1, seed, privKey).error == Ecc384KeyGen(e, v2, seed, privKey).error
  {
  }
}

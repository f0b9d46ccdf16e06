/**
  Shared vocabulary of the FMC boot stage: bytes and fixed-size byte arrays,
  the error-carrying result type, key-slot identifiers and usage flags,
  ECC public keys and key pairs, the measurement-register bank, the reset
  reason and the hand-off record accessors.
 */
module Types {

  type byte = bv8

  /** A `[u8; 20]`: subject key identifier and certificate serial number. */
  type Bytes20 = s: seq<byte> | |s| == 20 witness Zeros(20)
  /** A `[u8; 32]`: a SHA-256 digest. */
  type Bytes32 = s: seq<byte> | |s| == 32 witness Zeros(32)
  /** A `[u8; 48]`: a PCR value, an ECC coordinate, an ECC nonce. */
  type Bytes48 = s: seq<byte> | |s| == 48 witness Zeros(48)
  /** A `[u8; 64]`: a subject serial number in hex. */
  type Bytes64 = s: seq<byte> | |s| == 64 witness Zeros(64)

  function Zeros(n: nat): (z: seq<byte>)
    ensures |z| == n
    ensures forall i :: 0 <= i < n ==> z[i] == 0
  {
    seq(n, _ => 0)
  }

  datatype Option<+T> = None | Some(value: T)

  /** Errors surfaced by the drivers: a key-vault read refused because the
      slot lacks the usage flag the engine needs, or an opaque engine code. */
  datatype Error =
    | KeyReadDenied(slot: KeyId, needed: UsageFlag)
    | EngineFault(code: nat)

  /** `CaliptraResult<T>`, usable with `:-`. */
  datatype Result<+T> = Ok(value: T) | Err(error: Error) {
    predicate IsFailure() {
      Err?
    }

    function PropagateFailure<U>(): Result<U>
      requires Err?
    {
      Err(error)
    }

    function Extract(): T
      requires Ok?
    {
      value
    }
  }

  /** Key-vault slot number. */
  type KeyId = nat

  const KeyId5: KeyId := 5

  /** The capability flags a key-vault slot is written with (`KeyUsage`). */
  datatype UsageFlag = HmacKey | HmacData | ShaData | EccPrivateKey | EccKeyGenSeed

  /** The opaque content of a key-vault slot; it never leaves the vault. */
  type Secret = seq<byte>

  /** `Ecc384PubKey`: exportable, non-secret. */
  datatype PubKey = PubKey(x: Bytes48, y: Bytes48)

  /** `Ecc384PubKey::default()`: both coordinates zero. */
  const DefaultPubKey: PubKey := PubKey(Zeros(48), Zeros(48))

  /** `Ecc384KeyPair`: the private half is only a slot reference. */
  datatype Ecc384KeyPair = Ecc384KeyPair(privKey: KeyId, pubKey: PubKey)

  /** PCR0 (journey register) and PCR1 (current-boot register). */
  datatype PcrBank = PcrBank(pcr0: Bytes48, pcr1: Bytes48)

  /** The latched hardware reset reason. */
  datatype ResetReason = ColdReset | WarmReset | UpdateReset | Unknown

  /** The hand-off record, through the two accessors this stage reads.
      The measurements the PCR extenders consume are part of `others`. */
  datatype HandOff = HandOff(fmcCdi: KeyId, fmcPrivKey: KeyId, others: seq<byte>)
}

/**
  The FMC environment: the hardware engines the boot stage calls (SHA-256,
  HMAC-384, ECC-384 key generation, DER encoding of a public key, and the two
  PCR extenders), all as opaque functions, and the machine state they act on.
 */
module FmcEnv {
  import opened Types
  import opened KeyVault

  /** The engines behind `FmcEnv`. Each is a deterministic function of what
      it is given; a hardware fault is an `Err` result carrying an
      `EngineFault` code. */
  datatype Engines = Engines(
    // `Sha256::digest` over a byte slice
    sha256: seq<byte> -> Result<Bytes32>,
    // `Hmac384::hmac`: the key slot's secret and the data give the tag
    hmac384: (Secret, seq<byte>) -> Result<Secret>,
    // `Ecc384::key_pair`: the seed slot's secret and a nonce give the
    // private key (kept in the vault) and the public key
    ecc384KeyPair: (Secret, Bytes48) -> Result<(Secret, PubKey)>,
    // `Ecc384PubKey::to_der`
    toDer: PubKey -> seq<byte>,
    // `extend_pcr0` / `extend_pcr1` of the PCR module
    extendPcr0: (PcrBank, HandOff) -> Result<PcrBank>,
    extendPcr1: (PcrBank, HandOff) -> Result<PcrBank>
  )

  /** The mutable hardware state the stage sees: key vault, PCR bank and the
      latched reset reason. */
  datatype Machine = Machine(vault: Vault, pcrs: PcrBank, resetReason: ResetReason)

  /** How a boot-stage step ends: it returns a result, or it reports an
      error code and never returns. */
  datatype Outcome =
    | Returned(result: Result<()>, machine: Machine)
    | Halted(code: nat)
}

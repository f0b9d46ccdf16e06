# FMC identity-derivation core, modelled in Dafny

This project models the identity-derivation core of the Caliptra FMC boot
stage (the stage that runs after ROM and before the runtime firmware). The
model covers:

- **Naming utilities** (`fmc/src/flow/x509.rs`). These are the upper-case hex
  rendering of a SHA-256 digest, the subject serial number (64 hex
  characters), the subject key identifier (20 digest bytes), the certificate
  serial number (20 digest bytes with bit 7 of byte 0 cleared), and the
  length-bounded view of a certificate buffer.
- **Crypto wrappers** (`fmc/src/flow/crypto.rs`). These cover SHA-256, and
  HMAC-384 into a key-vault slot tagged `{hmac_key, ecc_key_gen_seed}`. They
  also cover ECC-384 key generation from a seed slot into a slot tagged
  `{ecc_private_key}`, which always uses the all-zero nonce.
- **The RT-alias DICE layer** (`fmc/src/flow/rt_alias.rs`). The layer extends
  PCR0 and then PCR1, and builds its `DiceInput` from the hand-off record. It
  then derives the CDI in place as `vault[cdi] := HMAC(vault[cdi], PCR1)`,
  generates the layer key pair from the CDI, and names the public key. A
  derivation failure reports error code `0xdead` and does not return.
- **The flow dispatcher** (`fmc/src/flow/mod.rs`). The RT-alias layer runs
  first and its returned result is discarded. Then the latched reset reason
  picks the cold, warm, update or unknown reset flow.

Modelling choices:

- **State.** The machine state is explicit (`FmcEnv.Machine`). It holds the
  key vault as `map<KeyId, Slot>`, where a slot is a secret plus its set of
  usage flags. It also holds the PCR bank and the reset reason.
- **Functions.** Every operation is a pure function. It returns the new state
  alongside a `Result` whose error carries the driver's error.
- **Engines.** The hardware engines are fields of function type in
  `FmcEnv.Engines`: SHA-256, HMAC-384, ECC-384 key generation,
  `Ecc384PubKey::to_der`, and the two PCR extenders. Each engine is a
  deterministic function of its inputs, and an `Err` result models a
  hardware fault.
- **Reading a key slot.** The engines read slots through `KeyVault.ReadAs`.
  A read is refused unless the slot was written with the needed usage flag,
  and a slot never written has no flags.
- **The reset flows.** The four flow bodies are fields of function type in
  `Flow.Flows`.
- **Bytes.** Bytes are `bv8`, so the nibble masks and `digest[0] &= !0x80`
  are written as in the source. The `Array4x8`/`Array4x12` conversions to
  byte arrays are taken to be the identity: a digest is modelled as 32 bytes
  and a PCR value as 48 bytes.

Points where the code does less than its comments or names suggest, and
the model follows the code:

- The comment at `fmc/src/flow/rt_alias.rs:32` says PCR0 and PCR1 must hold
  the same value at that point. No check is made, so none is modelled.
- `fmc/src/flow/mod.rs:41-55` runs the RT-alias layer before the reset reason
  is read, for every reason, the unknown one included. `Flow.Run` states
  exactly that.
- Certificate signing, authority-key erasure and signature verification are
  commented out at `fmc/src/flow/rt_alias.rs:157-202`, and
  `generate_cert_sig` returns `Ok(())`.

## Model

| member | source | states |
|---|---|---|
| X509.CertificateGet | fmc/src/flow/x509.rs:18-38 | gives the buffer's first `len` bytes (a prefix of exactly `len` bytes) when `len` is at most the capacity, and nothing otherwise |
| X509.Ch | fmc/src/flow/x509.rs:105-111 | only the low nibble matters; the result is an upper-case hex digit whose value is that nibble; it is a decimal digit exactly when the nibble is below 10 |
| X509.Hex | fmc/src/flow/x509.rs:104-121 | the output is twice as long as the input and every output byte is in `[0-9A-F]` |
| X509.HexLayout | fmc/src/flow/x509.rs:113-118 | for every byte i of the input, position 2i of the output encodes its high nibble and position 2i+1 its low nibble |
| X509.HexKnownAnswer | fmc/src/flow/x509.rs:104-121 | the bytes 00 FF 10 A5 render as the upper-case text `00FF10A5` |
| X509.UnhexHex | fmc/src/flow/x509.rs:104-121 | decoding the hex rendering pair-wise gives back the original bytes |
| X509.HexInjective | fmc/src/flow/x509.rs:104-121 | two buffers with the same hex rendering are equal |
| X509.ByteRoundTrip | fmc/src/flow/x509.rs:116-117 | the two digits written for one byte decode back to that byte |
| X509.SubjSn | fmc/src/flow/x509.rs:55-59 | a digest error comes back unchanged; otherwise the 64 output bytes are hex digits that decode to SHA-256 of the DER key |
| X509.SubjKeyId | fmc/src/flow/x509.rs:71-76 | a digest error comes back unchanged; otherwise the result is the unmodified 20-byte prefix of SHA-256 of the DER key |
| X509.CertSn | fmc/src/flow/x509.rs:88-93 | a digest error comes back unchanged; otherwise bit 7 of byte 0 is clear, the low 7 bits of byte 0 are the digest's, and bytes 1..19 are digest bytes 1..19 |
| X509.CertSnVersusSubjKeyId | fmc/src/flow/x509.rs:71-93 | the serial number and the key identifier of one key succeed or fail together with the same error; they agree on bytes 1..19, the serial's byte 0 is the identifier's with bit 7 cleared, and they are equal exactly when the digest's byte 0 is below 0x80 |
| Crypto.Sha256Digest | fmc/src/flow/crypto.rs:34-38 | the result is the digest engine's result on exactly `data`, an error included; the vault is not an input, so no slot changes |
| Crypto.Hmac384Mac | fmc/src/flow/crypto.rs:52-68 | succeeds exactly when the key slot may be read as an HMAC key and the engine succeeds, and otherwise returns that error; on success it returns the `tag` slot it was given, the tag slot holds the MAC with usage exactly `{HmacKey, EccKeyGenSeed}`, and no other slot changes |
| Crypto.Ecc384KeyGen | fmc/src/flow/crypto.rs:81-100 | succeeds exactly when the seed slot may be read as a key-generation seed and the engine succeeds, and otherwise returns that error; on success the pair's private key is the destination slot, the public key is the engine's on the seed secret and the all-zero nonce, the destination holds the private key with usage exactly `{EccPrivateKey}`, and no other slot changes |
| Crypto.KeyGenDeterministic | fmc/src/flow/crypto.rs:86-98 | with the fixed zero nonce, two vaults that agree on the seed slot give the same key pair, the same private-key slot content and the same error |
| RtAlias.DiceInputFromHandOff | fmc/src/flow/rt_alias.rs:74-89 | always succeeds; the CDI and UDS-key slots are both the hand-off's FMC CDI slot, the subject private-key slot is the hand-off's FMC key slot, the authority key pair is slot 5 with the default public key, and the authority serial number and key identifier are all zeros |
| RtAlias.DeriveCdi | fmc/src/flow/rt_alias.rs:102-109 | the CDI slot is both the MAC key and the tag: on success the result is that slot, which now holds HMAC(old content, PCR1) tagged `{HmacKey, EccKeyGenSeed}`, and no other slot changes; it fails exactly when the slot is not an HMAC key or the engine fails |
| RtAlias.DerivedCdiSeedsKeyGen | fmc/src/flow/rt_alias.rs:38-42 | after a successful CDI derivation, the CDI slot can be read as a key-generation seed, which yields the derived CDI, and it can still be read as an HMAC key |
| RtAlias.DeriveKeyPair | fmc/src/flow/rt_alias.rs:122-124 | the key pair is generated from seed slot `cdi` into slot `priv_key`: the pair names `priv_key` and carries the public key generated from the CDI secret with a zero nonce, and only `priv_key` changes |
| RtAlias.GenerateCertSig | fmc/src/flow/rt_alias.rs:147-205 | always succeeds; it is given no vault, so no slot changes |
| RtAlias.Derive | fmc/src/flow/rt_alias.rs:31-60 | succeeds exactly when the inherited CDI slot is an HMAC key and the MAC, key-generation and digest engines succeed on the chained values. On success: the CDI slot holds HMAC(old CDI, PCR1), unless the key slot is the same slot; the key slot holds the key generated from that CDI; the output key pair is that key; the serial number is exactly the hex rendering of the digest of that public key, and the key identifier is a prefix of that digest; and no slot other than these two changes |
| RtAlias.DeriveStopsAtFirstError | fmc/src/flow/rt_alias.rs:39-54 | when the CDI derivation, the key-pair derivation, the serial number or the key identifier fails, the derivation returns that step's error and no output |
| RtAlias.DeriveDeterministic | fmc/src/flow/rt_alias.rs:31-58 | two machines with the same inherited CDI slot and the same PCR1 give the same output (public key, serial number, key identifier) or the same error |
| RtAlias.ExtendPcrs | fmc/src/flow/rt_alias.rs:134-138 | PCR1 is extended only after PCR0 was extended successfully, and on top of the extended bank; a failure of either returns that error and keeps the bank as it stood |
| RtAlias.Run | fmc/src/flow/rt_alias.rs:65-72 | an extension failure returns that error with the vault untouched and no derivation; otherwise derivation runs on the extended PCR1 and either halts with `0xdead` (exactly when derivation fails) or returns `Ok` with the derived vault; the reset reason never changes |
| Flow.SelectFlow | fmc/src/flow/mod.rs:43-55 | cold, warm and update resets each select their own flow, and every other reason selects the unknown-reset flow; distinct flows for distinct classes |
| Flow.Run | fmc/src/flow/mod.rs:39-56 | a halt in the RT-alias layer is the stage's outcome; otherwise the outcome is that of the flow selected by the reset reason the machine started with, run on the state the layer left |
| Flow.OnlySelectedFlowRuns | fmc/src/flow/mod.rs:43-55 | the outcome depends on the selected flow's body alone: changing the other three flows changes nothing |
| Flow.LayerResultIgnored | fmc/src/flow/mod.rs:41-42 | whatever result the RT-alias layer returns, only the state it leaves affects the outcome |

## Left out

- The SHA-256, HMAC-384 and ECC-384 engines and `Ecc384PubKey::to_der` are opaque functions, because they are hardware engines or driver code that is not part of this model. An engine fault is modelled as an `Err` result carrying an `EngineFault` code.
- Crypto.Hmac384Mac: the key argument is modelled only as a key-vault slot (`Hmac384Key::Key`), and the data only as a byte slice, because those are the only forms this core passes.
- RtAlias.DeriveStopsAtFirstError: the engines are deterministic, so the second digest (for the key identifier) cannot fail after the first (for the serial number) succeeded. A transient fault between the two digests is not modelled.
- `extend_pcr0` and `extend_pcr1` are opaque functions of the PCR bank and the hand-off record, because the PCR module is not part of this model. A failed extension is taken to leave the bank as it was before that call.
- The cold, warm, update and unknown reset flow bodies are opaque, because their modules are not part of this model.
- Hand-off table mutation by the flows is not modelled, because only the flows' outcomes are observable here.
- `report_error` is modelled as the terminal outcome `Halted(0xdead)`: it reports the code and does not return. Its body is not part of this model, so whether the report is fatal or non-fatal is not modelled.
- The entry point, banner, trap/NMI/panic handlers and `transfer_control` of `fmc/src/main.rs` are left out as non-returning platform glue. The `cprintln` logging is also left out.
- The certificate signing, authority-key erasure and signature self-check are left out, because they are commented out in the source. The PCR0 = PCR1 check is also left out, because the source only mentions it in a comment.
- The chaining of a `DiceOutput` into the next layer's `DiceInput` is left out, because the DICE record module is not part of this model. `Dice.DiceInput.ToOutput` assumes a field-for-field assembly.
- `Certificate::new` is the `X509.Certificate` datatype constructor. It has no contract of its own.
- The host-side C bindings and the CPU crate's assembly include are left out as outside this core.

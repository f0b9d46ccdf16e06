/**
  The RT-alias DICE layer of the FMC: extend the two PCRs, build the layer's
  input from the hand-off record, derive the layer CDI in place from the
  inherited secret keyed over PCR1, generate the layer key pair from it and
  name that key.
 */
module RtAlias {
  import opened Types
  import opened KeyVault
  import opened FmcEnv
  import opened Dice
  import Crypto
  import X509

  /** The error code reported when derivation fails. */
  const DeriveFailedCode: nat := 0xdead

  /** The layer input, read from the hand-off record. */
  function DiceInputFromHandOff(h: HandOff): (r: Result<DiceInput>)
    ensures r.Ok?
    ensures r.value.cdi == r.value.udsKey == h.fmcCdi
    ensures r.value.subjPrivKey == h.fmcPrivKey
    ensures r.value.authKeyPair == Ecc384KeyPair(KeyId5, DefaultPubKey)
    ensures forall i :: 0 <= i < 64 ==> r.value.authSn[i] == 0
    ensures forall i :: 0 <= i < 20 ==> r.value.authKeyId[i] == 0
  {
    Ok(DiceInput(
      cdi := h.fmcCdi,
      subjPrivKey := h.fmcPrivKey,
      authKeyPair := Ecc384KeyPair(KeyId5, DefaultPubKey),
      authSn := Zeros(64),
      authKeyId := Zeros(20),
      udsKey := h.fmcCdi))
  }

  /** The CDI slot is both the HMAC key and the tag: its secret is replaced by
      HMAC(old secret, PCR1), tagged for HMAC-key and key-generation-seed use. */
  function DeriveCdi(e: Engines, v: Vault, uds: Bytes48, cdi: KeyId): (r: Result<(KeyId, Vault)>)
    ensures r.Ok? <==> ReadAs(v, cdi, HmacKey).Ok? && e.hmac384(Lookup(v, cdi).value.secret, uds).Ok?
    ensures r.Ok? ==> r.value.0 == cdi
    ensures r.Ok? ==>
              Lookup(r.value.1, cdi) == Some(Slot(e.hmac384(Lookup(v, cdi).value.secret, uds).value, {HmacKey, EccKeyGenSeed}))
    ensures r.Ok? ==> SameExcept(v, r.value.1, {cdi})
  {
    Crypto.Hmac384Mac(e, v, cdi, uds, cdi)
  }

  /** The derived CDI can seed key generation (and key a further HMAC). */
  lemma DerivedCdiSeedsKeyGen(e: Engines, v: Vault, uds: Bytes48, cdi: KeyId)
    requires DeriveCdi(e, v, uds, cdi).Ok?
    ensures ReadAs(DeriveCdi(e, v, uds, cdi).value.1, cdi, EccKeyGenSeed) ==
              Ok(e.hmac384(Lookup(v, cdi).value.secret, uds).value)
    ensures ReadAs(DeriveCdi(e, v, uds, cdi).value.1, cdi, HmacKey).Ok?
  {
  }

  /** The layer key pair: seeded by slot `cdi`, private half into `privKey`. */
  function DeriveKeyPair(e: Engines, v: Vault, cdi: KeyId, privKey: KeyId): (r: Result<(Ecc384KeyPair, Vault)>)
    ensures r.Ok? <==> ReadAs(v, cdi, EccKeyGenSeed).Ok? && e.ecc384KeyPair(Lookup(v, cdi).value.secret, Zeros(48)).Ok?
    ensures r.Ok? ==> r.value.0 == Ecc384KeyPair(privKey, e.ecc384KeyPair(Lookup(v, cdi).value.secret, Zeros(48)).value.1)
    ensures r.Ok? ==>
              Lookup(r.value.1, privKey) == Some(Slot(e.ecc384KeyPair(Lookup(v, cdi).value.secret, Zeros(48)).value.0, {EccPrivateKey}))
    ensures r.Ok? ==> SameExcept(v, r.value.1, {privKey})
  {
    Crypto.Ecc384KeyGen(e, v, cdi, privKey)
  }

  /** Signing the layer certificate: the signature, the erasure of the
      authority key and the self-check are not performed, so the step always
      succeeds; it is given no vault and so changes no slot. */
  function GenerateCertSig(e: Engines, input: DiceInput, output: DiceOutput): (r: Result<()>)
    ensures r.Ok?
  {
    Ok(())
  }

  /** The layer derivation, run on the machine state after PCR extension. */
  function Derive(e: Engines, m: Machine, input: DiceInput): (r: Result<(DiceOutput, Vault)>)
    ensures r.Ok? <==> DerivationSucceeds(e, m, input)
    ensures r.Ok? ==> DerivedAsSpecified(e, m, input, r.value.0, r.value.1)
  {
    var uds := m.pcrs.pcr1;
    var c :- DeriveCdi(e, m.vault, uds, input.cdi);
    var k :- DeriveKeyPair(e, c.1, c.0, input.subjPrivKey);
    var subjSn :- X509.SubjSn(e, k.0.pubKey);
    // The two `Err` branches below cannot be reached.
    match X509.SubjKeyId(e, k.0.pubKey)
    case Err(err) => Err(err)
    case Ok(subjKeyId) =>
      var output := input.ToOutput(k.0, subjSn, subjKeyId);
      match GenerateCertSig(e, input, output)
      case Err(err) => Err(err)
      case Ok(_) => Ok((output, k.1))
  }

  /** The CDI secret the layer derives: HMAC-384 keyed by the inherited secret
      over PCR1. */
  ghost function CdiSecret(e: Engines, m: Machine, input: DiceInput): Result<Secret>
    requires Lookup(m.vault, input.cdi).Some?
  {
    e.hmac384(Lookup(m.vault, input.cdi).value.secret, m.pcrs.pcr1)
  }

  /** Derivation succeeds exactly when the inherited secret may key an HMAC
      and the MAC, the key generation and the digest engines all succeed. */
  ghost predicate DerivationSucceeds(e: Engines, m: Machine, input: DiceInput)
  {
    && ReadAs(m.vault, input.cdi, HmacKey).Ok?
    && CdiSecret(e, m, input).Ok?
    && e.ecc384KeyPair(CdiSecret(e, m, input).value, Zeros(48)).Ok?
    && e.sha256(e.toDer(e.ecc384KeyPair(CdiSecret(e, m, input).value, Zeros(48)).value.1)).Ok?
  }

  /** What a successful derivation leaves behind, stated from the inputs: the
      CDI slot holds the derived CDI (unless the private-key slot is the same
      slot), the private-key slot holds the key generated from that CDI with a
      zero nonce, the output names that key, and no other slot changed. */
  ghost predicate DerivedAsSpecified(e: Engines, m: Machine, input: DiceInput, out: DiceOutput, v': Vault)
    requires DerivationSucceeds(e, m, input)
  {
    var cdiSecret := CdiSecret(e, m, input).value;
    var pair := e.ecc384KeyPair(cdiSecret, Zeros(48)).value;
    var digest := e.sha256(e.toDer(pair.1)).value;
    && (input.subjPrivKey != input.cdi ==>
          Lookup(v', input.cdi) == Some(Slot(cdiSecret, {HmacKey, EccKeyGenSeed})))
    && Lookup(v', input.subjPrivKey) == Some(Slot(pair.0, {EccPrivateKey}))
    && SameExcept(m.vault, v', {input.cdi, input.subjPrivKey})
    && out.subjKeyPair == Ecc384KeyPair(input.subjPrivKey, pair.1)
    && out.subjSn == X509.Hex(digest)
    && out.subjKeyId <= digest
  }

  /** Each step's error is the derivation's error: the first failing step
      ends the derivation with its own error and no output. */
  lemma DeriveStopsAtFirstError(e: Engines, m: Machine, input: DiceInput)
    ensures DeriveCdi(e, m.vault, m.pcrs.pcr1, input.cdi).Err? ==>
              Derive(e, m, input) == Err(DeriveCdi(e, m.vault, m.pcrs.pcr1, input.cdi).error)
    ensures DeriveCdi(e, m.vault, m.pcrs.pcr1, input.cdi).Ok? ==>
              var c := DeriveCdi(e, m.vault, m.pcrs.pcr1, input.cdi).value;
              var k := DeriveKeyPair(e, c.1, c.0, input.subjPrivKey);
              && (k.Err? ==> Derive(e, m, input) == Err(k.error))
              && (k.Ok? && X509.SubjSn(e, k.value.0.pubKey).Err? ==>
                    Derive(e, m, input) == Err(X509.SubjSn(e, k.value.0.pubKey).error))
              && (k.Ok? && X509.SubjKeyId(e, k.value.0.pubKey).Err? ==>
                    Derive(e, m, input) == Err(X509.SubjKeyId(e, k.value.0.pubKey).error))
  {
  }

  /** Determinism: the output and error of a derivation depend only on the
      inherited CDI slot and on PCR1. */
  lemma DeriveDeterministic(e: Engines, m1: Machine, m2: Machine, input: DiceInput)
    requires Lookup(m1.vault, input.cdi) == Lookup(m2.vault, input.cdi)
    requires m1.pcrs.pcr1 == m2.pcrs.pcr1
    ensures Derive(e, m1, input).Ok? <==> Derive(e, m2, input).Ok?
    ensures Derive(e, m1, input).Ok? ==> Derive(e, m1, input).value.0 == Derive(e, m2, input).value.0
    ensures Derive(e, m1, input).Err? ==> Derive(e, m1, input).error == Derive(e, m2, input).error
  {
  }

  /** Extend PCR0, then PCR1 on top of it; a failure of either ends the step
      with that failure, leaving whatever extension already happened. */
  function ExtendPcrs(e: Engines, bank: PcrBank, h: HandOff): (r: (Result<()>, PcrBank))
    ensures e.extendPcr0(bank, h).Err? ==> r == (Err(e.extendPcr0(bank, h).error), bank)
    ensures e.extendPcr0(bank, h).Ok? ==>
              var afterPcr0 := e.extendPcr0(bank, h).value;
              && (e.extendPcr1(afterPcr0, h).Err? ==> r == (Err(e.extendPcr1(afterPcr0, h).error), afterPcr0))
              && (e.extendPcr1(afterPcr0, h).Ok? ==> r == (Ok(()), e.extendPcr1(afterPcr0, h).value))
  {
    match e.extendPcr0(bank, h)
    case Err(err) => (Err(err), bank)
    case Ok(afterPcr0) =>
      match e.extendPcr1(afterPcr0, h)
      case Err(err) => (Err(err), afterPcr0)
      case Ok(afterPcr1) => (Ok(()), afterPcr1)
  }

  /** The layer's entry: extend the PCRs, then derive on the extended PCR1.
      A derivation failure reports error code `0xdead` and does not return;
      the derived output itself is dropped. */
  function Run(e: Engines, m: Machine, h: HandOff): (o: Outcome)
    ensures o.Returned? ==> o.machine.resetReason == m.resetReason
    ensures o.Halted? ==> o.code == DeriveFailedCode
    ensures var ext := ExtendPcrs(e, m.pcrs, h);
            ext.0.Err? ==> o == Returned(ext.0, m.(pcrs := ext.1))
    ensures var ext := ExtendPcrs(e, m.pcrs, h);
            var input := DiceInputFromHandOff(h).value;
            ext.0.Ok? ==>
              && (o.Halted? <==> !DerivationSucceeds(e, m.(pcrs := ext.1), input))
              && (o.Returned? ==> o.result.Ok? && o.machine.pcrs == ext.1)
              && (o.Returned? ==> DerivedAsSpecified(e, m.(pcrs := ext.1), input, Derive(e, m.(pcrs := ext.1), input).value.0, o.machine.vault))
  {
    var (ext, bank) := ExtendPcrs(e, m.pcrs, h);
    var m1 := m.(pcrs := bank);
    if ext.Err? then Returned(ext, m1)
    else
      match DiceInputFromHandOff(h)
      case Err(_) => Returned(Ok(()), m1)
      case Ok(input) =>
        match Derive(e, m1, input)
        case Err(_) => Halted(DeriveFailedCode)
        case Ok(derived) => Returned(Ok(()), m1.(vault := derived.1))
  }
}

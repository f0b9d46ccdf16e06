/**
  The records a DICE layer consumes and produces. `to_output` keeps the
  derived key pair and its two names, which the next layer takes as its
  authority fields.
 */
module Dice {
  import opened Types

  datatype DiceInput = DiceInput(
    cdi: KeyId,                  // slot of the inherited secret, derived in place
    subjPrivKey: KeyId,          // slot to receive this layer's private key
    authKeyPair: Ecc384KeyPair,  // the parent's key pair
    authSn: Bytes64,             // the parent's subject serial number
    authKeyId: Bytes20,          // the parent's subject key identifier
    udsKey: KeyId                // slot of the chain-root secret
  ) {
    /** `DiceInput::to_output`: the output carries the derived key pair and
        its two names. */
    function ToOutput(keyPair: Ecc384KeyPair, subjSn: Bytes64, subjKeyId: Bytes20): DiceOutput
    {
      DiceOutput(keyPair, subjSn, subjKeyId)
    }
  }

  datatype DiceOutput = DiceOutput(subjKeyPair: Ecc384KeyPair, subjSn: Bytes64, subjKeyId: Bytes20)
}

/** The metadata of an encrypted value: ciphertext, initialisation vector and key id, each
    filled in by its own setter. */
module CipherMetadata {
  import opened Wrappers

  /** Java strings may be null; None stands for null. */
  class CipherInitializationVector {
    var cipher: Option<string>
    var initializationVector: Option<string>
    var keyId: Option<string>

    constructor ()
      ensures GetCipher() == None && GetInitializationVector() == None && GetKeyId() == None
    {
      cipher, initializationVector, keyId := None, None, None;
    }

    function GetCipher(): Option<string>
      reads this
    {
      cipher
    }

    function GetInitializationVector(): Option<string>
      reads this
    {
      initializationVector
    }

    function GetKeyId(): Option<string>
      reads this
    {
      keyId
    }

    method SetCipher(cipher: Option<string>)
      modifies this
      ensures GetCipher() == cipher
      ensures GetInitializationVector() == old(GetInitializationVector()) && GetKeyId() == old(GetKeyId())
    {
      this.cipher := cipher;
    }

    method SetInitializationVector(initializationVector: Option<string>)
      modifies this
      ensures GetInitializationVector() == initializationVector
      ensures GetCipher() == old(GetCipher()) && GetKeyId() == old(GetKeyId())
    {
      this.initializationVector := initializationVector;
    }

    method SetKeyId(keyId: Option<string>)
      modifies this
      ensures GetKeyId() == keyId
      ensures GetCipher() == old(GetCipher()) && GetInitializationVector() == old(GetInitializationVector())
    {
      this.keyId := keyId;
    }
  }
}

/**
 * The Nigori key derivation and encryption the sync test relies on, kept
 * abstract: key material is identified by its derivation inputs, so the
 * derivation is injective, and encryption is authenticated (only the keys a
 * blob was encrypted with decrypt it).
 */
module Nigori {
  import opened Wrappers

  /** KeyDerivationParams::CreateForPbkdf2() and CreateForScrypt(salt). */
  datatype KeyDerivationParams = Pbkdf2 | Scrypt(salt: string)

  /** The keys Nigori::CreateByDerivation produces. */
  datatype NigoriKeys = DerivedKeys(params: KeyDerivationParams, passphrase: string)

  /** The name Permute(Password, kNigoriKeyName) computes for a set of keys. */
  datatype KeyName = PermutedKeyName(keys: NigoriKeys)

  datatype Blob = Ciphertext(keys: NigoriKeys, plaintext: string)

  /** sync_pb::EncryptedData: the key name and the encrypted blob. */
  datatype EncryptedData = EncryptedData(keyName: KeyName, blob: Blob)

  function CreateByDerivation(params: KeyDerivationParams, passphrase: string): NigoriKeys
  {
    DerivedKeys(params, passphrase)
  }

  function Permute(keys: NigoriKeys): KeyName
  {
    PermutedKeyName(keys)
  }

  function Encrypt(keys: NigoriKeys, plaintext: string): Blob
  {
    Ciphertext(keys, plaintext)
  }

  function Decrypt(keys: NigoriKeys, blob: Blob): (r: Option<string>)
    ensures r.Some? <==> blob.keys == keys
  {
    if blob.keys == keys then Some(blob.plaintext) else None
  }

  /** The test helper that encrypts "test" under keys derived from `passphrase`. */
  function MakeEncryptedData(passphrase: string, params: KeyDerivationParams): (e: EncryptedData)
    ensures Decrypt(CreateByDerivation(params, passphrase), e.blob) == Some("test")
  {
    var keys := CreateByDerivation(params, passphrase);
    EncryptedData(Permute(keys), Encrypt(keys, "test"))
  }

  /** A candidate passphrase is accepted when the keys it derives have the stored key name. */
  predicate CheckPassphrase(encrypted: EncryptedData, params: KeyDerivationParams, candidate: string)
  {
    Permute(CreateByDerivation(params, candidate)) == encrypted.keyName
  }

  /** Derivation followed by Permute identifies the passphrase and the parameters. */
  lemma KeyNameIsInjective(p1: KeyDerivationParams, q1: string, p2: KeyDerivationParams, q2: string)
    ensures Permute(CreateByDerivation(p1, q1)) == Permute(CreateByDerivation(p2, q2)) <==> p1 == p2 && q1 == q2
  {
  }

  /**
   * Passphrase round trip: the passphrase the data was made with is accepted
   * under the same parameters, and every other passphrase is rejected.
   */
  lemma PassphraseRoundTrip(passphrase: string, params: KeyDerivationParams, candidate: string)
    ensures CheckPassphrase(MakeEncryptedData(passphrase, params), params, candidate) <==> candidate == passphrase
  {
    KeyNameIsInjective(params, passphrase, params, candidate);
  }
}

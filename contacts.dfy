/** The key and contact values the service and the keychain screen pass around. The `Contact`
    and `Key` classes themselves (ObjectivePGP's key, the app's contact record) are not part
    of this model; only the fields the core reads are kept. */
module Contacts {
  import opened Text

  /** An OpenPGP key ID, compared for equality only. */
  datatype KeyId = KeyId(octets: seq<byte>)

  /** A parsed OpenPGP key; its packets are never interpreted here. */
  datatype Key = Key(keyId: KeyId, isPassphraseProtected: bool, packets: seq<byte>)

  /** An entry of the keychain: the name and e-mail shown in the list, and its key. */
  datatype Contact = Contact(name: string, email: string, key: Key) {
    /** The key's secret material is encrypted and must be unlocked with a passphrase. */
    predicate KeyRequiresPassphrase() {
      key.isPassphraseProtected
    }
  }
}

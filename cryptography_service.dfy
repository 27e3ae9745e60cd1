/** The OpenPGP orchestration of the app: encrypting for several recipients with optional
    signing, decrypting with a passphrase-protected private key, checking a passphrase, and
    finding which of the user's private keys can open a message. The cryptography is done by
    the ObjectivePGP library, which this model only calls: each library, Foundation and
    service entry point it uses is a field of `Collaborators`, taken as given. */
module CryptographyService {
  import opened Wrappers
  import opened Sequences
  import opened Text
  import opened Armor
  import opened Contacts

  /** Whatever the library throws; its content is not interpreted. */
  datatype LibraryError = LibraryError(description: string)

  /** The error a `catch` block caught: one thrown by the library, or one of the service's own
      errors thrown inside the `do` block. */
  datatype Cause = Library(error: LibraryError) | Raised(raised: CryptographyError)

  datatype CryptographyError =
    | EmptyMessage
    | InvalidMessage
    | RequiresPassphrase
    | WrongPassphrase
    | FrameworkError(cause: Cause)
    | FailedEncryption
    | FailedDecryption

  /** The callback through which the library asks for the passphrase of a key. */
  type PassphraseForKey = Key -> Option<string>

  /** The calls the service makes into code outside this model. */
  datatype Collaborators = Collaborators(
    // ObjectivePGP.encrypt(_:addSignature:using:passphraseForKey:)
    encrypt: (seq<byte>, bool, seq<Key>, PassphraseForKey) -> Result<seq<byte>, LibraryError>,
    // ObjectivePGP.decrypt(_:andVerifySignature:using:passphraseForKey:)
    decrypt: (seq<byte>, bool, seq<Key>, PassphraseForKey) -> Result<seq<byte>, LibraryError>,
    // ObjectivePGP.recipientsKeyID(forMessage:)
    recipientsKeyID: seq<byte> -> Result<seq<KeyId>, LibraryError>,
    // Key.decrypted(withPassphrase:)
    decrypted: (Key, string) -> Result<Key, LibraryError>,
    // Armor.armored(_:as: .message)
    armoredMessage: seq<byte> -> string,
    // String.data(using: .utf8), which cannot fail on a Swift string
    utf8Data: string -> seq<byte>,
    // String(data:encoding: .utf8)
    utf8String: seq<byte> -> Option<string>,
    // MimeParsingService.parse(_:)
    parseMime: string -> string,
    // ContactListService.get(forKey:)
    contactForKey: Key -> Option<Contact>)

  /** The process-wide count of actions after which the app may ask for a store review. Only
      the counter is modelled; the rest of the review service is not part of this model. */
  class AppStoreReviewService {
    var reviewWorthyActionCount: nat

    constructor ()
      ensures reviewWorthyActionCount == 0
    {
      reviewWorthyActionCount := 0;
    }

    method IncrementReviewWorthyActionCount()
      modifies this
      ensures reviewWorthyActionCount == old(reviewWorthyActionCount) + 1
    {
      reviewWorthyActionCount := reviewWorthyActionCount + 1;
    }
  }

  /** The keys of some contacts, in the contacts' order (`contacts.map { $0.key }`). */
  function KeysOf(contacts: seq<Contact>): (keys: seq<Key>)
    ensures |keys| == |contacts|
    ensures forall i :: 0 <= i < |contacts| ==> keys[i] == contacts[i].key
  {
    seq(|contacts|, i requires 0 <= i < |contacts| => contacts[i].key)
  }

  /** Signing is asked for when a signer list is given and holds at least one contact. */
  predicate AddsSignature(signatures: Option<seq<Contact>>) {
    signatures.Some? && signatures.value != []
  }

  /** The keys handed to the library: every recipient's key in order, then, when signing,
      every signer's key in order. */
  function EncryptionKeys(contacts: seq<Contact>, signatures: Option<seq<Contact>>): (keys: seq<Key>)
    ensures !AddsSignature(signatures) ==> keys == KeysOf(contacts)
    ensures AddsSignature(signatures) ==> |keys| == |contacts| + |signatures.value|
    ensures forall i :: 0 <= i < |contacts| ==> keys[i] == contacts[i].key
    ensures AddsSignature(signatures) ==>
              forall i :: 0 <= i < |signatures.value| ==> keys[|contacts| + i] == signatures.value[i].key
  {
    if AddsSignature(signatures) then KeysOf(contacts) + KeysOf(signatures.value) else KeysOf(contacts)
  }

  /** The callback `encrypt` gives the library: find the contact that owns the key and ask the
      caller's handler for its passphrase. The app force-unwraps both the owner and the handler
      there and crashes when either is missing; the model answers "no passphrase" instead. */
  function SignerPassphrase(env: Collaborators, passphrase: Option<Contact -> Option<string>>): (answer: PassphraseForKey)
    ensures forall key :: answer(key).Some? ==> env.contactForKey(key).Some? && passphrase.Some?
    ensures forall key :: env.contactForKey(key).Some? && passphrase.Some? ==>
              answer(key) == passphrase.value(env.contactForKey(key).value)
  {
    key =>
      match env.contactForKey(key)
      case None => None
      case Some(contact) =>
        match passphrase
        case None => None
        case Some(handler) => handler(contact)
  }

  /** The callback `decrypt` gives the library: the same passphrase for every key. */
  function FixedPassphrase(passphrase: Option<string>): PassphraseForKey {
    _ => passphrase
  }

  /** `CryptographyService.encrypt`: checks the message, collects the recipients' and signers'
      keys and hands them to the library in one combined sign-and-encrypt call, then armors the
      result. The review counter rises by one exactly when a message comes out. */
  method Encrypt(env: Collaborators, review: AppStoreReviewService, message: string, contacts: seq<Contact>,
                 signatures: Option<seq<Contact>>, passphrase: Option<Contact -> Option<string>>)
    returns (r: Result<string, CryptographyError>)
    modifies review
    ensures message == [] ==> r == Failure(EmptyMessage)
    ensures message != [] && AddsSignature(signatures) && passphrase.None? ==> r == Failure(FailedEncryption)
    ensures message != [] && !(AddsSignature(signatures) && passphrase.None?) ==>
              var sealed := env.encrypt(env.utf8Data(message), AddsSignature(signatures),
                                        EncryptionKeys(contacts, signatures), SignerPassphrase(env, passphrase));
              r == match sealed
                   case Success(bin) => Success(env.armoredMessage(bin))
                   case Failure(e) => Failure(FrameworkError(Library(e)))
    ensures review.reviewWorthyActionCount == old(review.reviewWorthyActionCount) + (if r.Success? then 1 else 0)
  {
    if message == [] {
      return Failure(EmptyMessage);
    }
    var messageData := env.utf8Data(message);

    var keys := KeysOf(contacts);

    var signMessage := false;
    if signatures.Some? && signatures.value != [] {
      signMessage := true;
      if passphrase.None? {
        return Failure(FailedEncryption);
      }
      keys := keys + KeysOf(signatures.value);
    }

    var encryptedBin := env.encrypt(messageData, signMessage, keys, SignerPassphrase(env, passphrase));
    if encryptedBin.Failure? {
      return Failure(FrameworkError(Library(encryptedBin.error)));
    }
    review.IncrementReviewWorthyActionCount();
    r := Success(env.armoredMessage(encryptedBin.value));
  }

  /** `passphraseIsCorrect`: whether the passphrase unlocks the key. Any failure of the unlock
      counts as "incorrect"; nothing is thrown. */
  function PassphraseIsCorrect(env: Collaborators, passphrase: string, key: Key): (correct: bool)
    ensures correct <==> env.decrypted(key, passphrase).Success?
  {
    match env.decrypted(key, passphrase)
    case Success(_) => true
    case Failure(_) => false
  }

  /** The passphrase checks `decrypt` runs before it touches the message: none for a key that
      is not protected; for a protected one, a passphrase must be given, the empty one only if
      it unlocks the key, and any other one must unlock the key. */
  function PassphraseGate(keyRequiresPassphrase: bool, passphrase: Option<string>, unlocks: string -> bool)
    : (r: Outcome<CryptographyError>)
    ensures !keyRequiresPassphrase ==> r == Pass
    ensures keyRequiresPassphrase && passphrase.None? ==> r == Fail(RequiresPassphrase)
    ensures keyRequiresPassphrase && passphrase == Some("") ==>
              r == (if unlocks("") then Pass else Fail(RequiresPassphrase))
    ensures keyRequiresPassphrase && passphrase.Some? && passphrase.value != "" ==>
              r == (if unlocks(passphrase.value) then Pass else Fail(WrongPassphrase))
    ensures r == Pass <==> !keyRequiresPassphrase || (passphrase.Some? && unlocks(passphrase.value))
  {
    if !keyRequiresPassphrase then Pass
    else if passphrase.None? then Fail(RequiresPassphrase)
    else if !(passphrase.value != "" || unlocks("")) then Fail(RequiresPassphrase)
    else if !unlocks(passphrase.value) then Fail(WrongPassphrase)
    else Pass
  }

  /** The unlock test `decrypt` applies to its key. */
  function Unlocks(env: Collaborators, key: Key): string -> bool {
    p => PassphraseIsCorrect(env, p, key)
  }

  /** The armored part of a message, as ASCII bytes, if there is one and it is ASCII. */
  function ArmoredMessageData(message: string): (r: Option<seq<byte>>)
    ensures r.Some? <==> ExtractArmoredMessage(message).Some?
                         && forall k :: 0 <= k < |ExtractArmoredMessage(message).value| ==>
                              ExtractArmoredMessage(message).value[k] as int < 128
    ensures r.Some? ==> |r.value| == |ExtractArmoredMessage(message).value|
    ensures r.Some? ==> forall k :: 0 <= k < |r.value| ==>
                          r.value[k] as int == ExtractArmoredMessage(message).value[k] as int
    ensures r.Some? ==> forall k :: 0 <= k < |r.value| ==> r.value[k] < 128
  {
    match ExtractArmoredMessage(message)
    case None => None
    case Some(armored) => AsciiData(armored)
  }

  /** The inside of `decrypt`'s `do` block after the library call: decode the plaintext and
      unwrap it if it is MIME. Every error in there, the service's own `failedDecryption`
      included, leaves the block as `frameworkError`. */
  function AfterDecryption(env: Collaborators, decrypted: Result<seq<byte>, LibraryError>)
    : (r: Result<string, CryptographyError>)
    ensures r.Failure? ==> r.error.FrameworkError?
    ensures r.Success? <==> decrypted.Success? && env.utf8String(decrypted.value).Some?
    ensures decrypted.Failure? ==> r == Failure(FrameworkError(Library(decrypted.error)))
    ensures decrypted.Success? && env.utf8String(decrypted.value).None? ==>
              r == Failure(FrameworkError(Raised(FailedDecryption)))
    ensures r.Success? ==> r.value == env.parseMime(env.utf8String(decrypted.value).value)
  {
    match decrypted
    case Failure(e) => Failure(FrameworkError(Library(e)))
    case Success(data) =>
      match env.utf8String(data)
      case None => Failure(FrameworkError(Raised(FailedDecryption)))
      case Some(text) => Success(env.parseMime(text))
  }

  /** `CryptographyService.decrypt`: message checks first, then the passphrase checks, then one
      library call with the contact's key and signature verification off. The review counter
      rises by one exactly when a plaintext comes out. */
  method Decrypt(env: Collaborators, review: AppStoreReviewService, message: string, contact: Contact,
                 passphrase: Option<string>)
    returns (r: Result<string, CryptographyError>)
    modifies review
    ensures message == [] ==> r == Failure(EmptyMessage)
    ensures message != [] && ArmoredMessageData(message).None? ==> r == Failure(InvalidMessage)
    ensures message != [] && ArmoredMessageData(message).Some? ==>
              var gate := PassphraseGate(contact.KeyRequiresPassphrase(), passphrase, Unlocks(env, contact.key));
              if gate.Fail? then r == Failure(gate.error)
              else r == AfterDecryption(env, env.decrypt(ArmoredMessageData(message).value, false,
                                                         [contact.key], FixedPassphrase(passphrase)))
    ensures review.reviewWorthyActionCount == old(review.reviewWorthyActionCount) + (if r.Success? then 1 else 0)
  {
    var decryptionKey := contact.key;
    var keyRequiresPassphrase := contact.KeyRequiresPassphrase();

    if message == [] {
      return Failure(EmptyMessage);
    }
    var armored := ExtractArmoredMessage(message);
    if armored.None? {
      return Failure(InvalidMessage);
    }
    var messageData := AsciiData(armored.value);
    if messageData.None? {
      return Failure(InvalidMessage);
    }

    var gate := PassphraseGate(keyRequiresPassphrase, passphrase, Unlocks(env, decryptionKey));
    if gate.Fail? {
      return Failure(gate.error);
    }

    var decryptedMessageData := env.decrypt(messageData.value, false, [decryptionKey], FixedPassphrase(passphrase));
    r := AfterDecryption(env, decryptedMessageData);
    if r.Success? {
      review.IncrementReviewWorthyActionCount();
    }
  }

  /** The private-key contacts whose key ID is among the recipients, in the directory's order. */
  function RecipientContacts(privateKeyContacts: seq<Contact>, recipientIds: seq<KeyId>): (r: seq<Contact>)
    ensures IsSubsequence(r, privateKeyContacts)
    ensures forall c :: c in r <==> c in privateKeyContacts && c.key.keyId in recipientIds
    ensures forall c :: multiset(r)[c] == if c.key.keyId in recipientIds then multiset(privateKeyContacts)[c] else 0
  {
    Filter(privateKeyContacts, (c: Contact) => c.key.keyId in recipientIds)
  }

  /** `decryptionContacts`: which of the user's private-key contacts the message is addressed
      to. Advisory: every failure on the way gives the empty list instead of an error. */
  method DecryptionContacts(env: Collaborators, privateKeyContacts: seq<Contact>, message: string)
    returns (r: seq<Contact>)
    ensures message == [] || ArmoredMessageData(message).None? ==> r == []
    ensures message != [] && ArmoredMessageData(message).Some? ==>
              r == match env.recipientsKeyID(ArmoredMessageData(message).value)
                   case Failure(_) => []
                   case Success(ids) => RecipientContacts(privateKeyContacts, ids)
    ensures IsSubsequence(r, privateKeyContacts)
    ensures forall c :: c in r ==> c in privateKeyContacts
  {
    var decryptionKeyIDs: seq<KeyId> := [];

    if message == [] {
      return [];
    }
    var armored := ExtractArmoredMessage(message);
    if armored.None? {
      return [];
    }
    var messageData := AsciiData(armored.value);
    if messageData.None? {
      return [];
    }

    var found := env.recipientsKeyID(messageData.value);
    if found.Failure? {
      return [];
    }
    decryptionKeyIDs := found.value;

    r := RecipientContacts(privateKeyContacts, decryptionKeyIDs);
  }
}

# PGPro: cryptography orchestration and keychain list logic

PGPro is an iOS OpenPGP client. This project models two parts of it in Dafny and proves what
they promise.

**`CryptographyService`** sits between the app and the ObjectivePGP library:
- `encrypt` checks the message. It collects the recipients' keys and, when signing, the signers'
  keys. It makes one sign-and-encrypt call, armors the result, and bumps the App Store review
  counter.
- `decrypt` checks the message. It cuts the ASCII-armored envelope out of the pasted text and
  runs a three-step passphrase gate. It then makes one decrypt call, decodes and MIME-unwraps the
  plaintext, and bumps the counter.
- `passphraseIsCorrect` asks whether a passphrase unlocks a key.
- `decryptionContacts` picks the user's private-key contacts that a message is addressed to.

**`KeychainViewController`** is the keychain screen. The model covers its list rules:
- the case-insensitive search filter and `isFiltering`;
- the row count with the optional YubiKey row on top;
- the row-to-contact mapping;
- the delete handler's list update;
- the count totals when keys are imported from several files;
- the pluralised summary of an import.

The library's cryptography and the app's other services are collaborators whose code is not part
of this model:
- ObjectivePGP `encrypt`, `decrypt`, `recipientsKeyID` and `Key.decrypted`;
- `Armor.armored`;
- the UTF-8 conversions;
- `MimeParsingService.parse`;
- `ContactListService.get(forKey:)`.

They are total function values in a `Collaborators` record that each operation takes as a
parameter. Each one that can throw returns a `Result`. The process-wide review counter is the
field of the `AppStoreReviewService` class. The screen's state is the fields of the
`KeychainViewController` class:
- `contacts` and `filteredContacts`;
- the search controller's active flag and text;
- the two preferences.

The files are:
- `wrappers.dfy`: `Option`, `Result` and `Outcome`.
- `sequences.dfy`: subsequences, order-preserving filtering, removal at an index, and substring
  search.
- `text.dfy`: ASCII lower-casing, ASCII encoding, and the decimal rendering of counts.
- `armor.dfy`: locating the armored message.
- `contacts.dfy`: contacts and keys.
- `cryptography_service.dfy`: the service.
- `keychain.dfy`: the screen's search and row logic.
- `keychain_import.dfy`: import totals and the summary alert.

Where the code and its documented intent differ, the model follows the code:
- **Envelope extraction.** The pattern is `-----BEGIN PGP MESSAGE-----(.|\s)*-----END PGP MESSAGE-----`, whose markers are the armor header lines of section 6.2 of RFC 4880. It is run with ICU's leftmost, greedy semantics.
  - ICU's `\s` contains every line terminator that `.` refuses, so the gap accepts any character.
  - The match therefore runs from the first BEGIN marker to the last END marker after it, not to the first END marker.
  - Two messages pasted one after the other come out as one envelope.
- **A missing passphrase for a protected key.** It always yields `requiresPassphrase`, even when the empty passphrase would unlock the key. The nil check comes before the empty-passphrase check.

## Model

| member | source | states |
|---|---|---|
| CryptographyService.Encrypt | PGPro/Global/Model/Services/CryptographyService.swift:55-87 | An empty message fails with `emptyMessage` before anything else. A non-empty signer list without a passphrase handler fails with `failedEncryption` and reaches no library call. Otherwise the library gets the UTF-8 data, the sign flag and the combined key list. Its output is armored, and its error comes out as `frameworkError`. The review counter rises by one exactly on success. |
| CryptographyService.EncryptionKeys | PGPro/Global/Model/Services/CryptographyService.swift:60-73 | The key list is every recipient's key in order. When signing, every signer's key follows in order, and the length is the sum of both. |
| CryptographyService.KeysOf | PGPro/Global/Model/Services/CryptographyService.swift:60 | `contacts.map { $0.key }`: the same length, and the key of the contact at the same index. |
| CryptographyService.SignerPassphrase | PGPro/Global/Model/Services/CryptographyService.swift:77-80 | The callback answers a passphrase for a key only when the key's owning contact is found and a handler was given. It is then the handler's answer for that contact. |
| CryptographyService.PassphraseIsCorrect | PGPro/Global/Model/Services/CryptographyService.swift:131-138 | True exactly when unlocking the key with the passphrase does not fail. It never fails itself. |
| CryptographyService.PassphraseGate | PGPro/Global/Model/Services/CryptographyService.swift:103-113 | An unprotected key passes. For a protected key: no passphrase gives `requiresPassphrase`; the empty one passes only if it unlocks the key, else `requiresPassphrase`; any other one passes only if it unlocks the key, else `wrongPassphrase`. Overall it passes iff the key is unprotected or a given passphrase unlocks it. |
| CryptographyService.ArmoredMessageData | PGPro/Global/Model/Services/CryptographyService.swift:95-100 | Data comes out exactly when the trimmed message exists and every character of it is 7-bit ASCII. The bytes are then that message's character codes, one per character. |
| CryptographyService.AfterDecryption | PGPro/Global/Model/Services/CryptographyService.swift:116-128 | Every error of the `do` block leaves it as `frameworkError`. A library error is wrapped. A plaintext that is not UTF-8 becomes `frameworkError(failedDecryption)`. Success is the MIME-parsed text, and it happens exactly when the library succeeds and the text decodes. |
| CryptographyService.Decrypt | PGPro/Global/Model/Services/CryptographyService.swift:89-129 | The error order is: `emptyMessage`, then `invalidMessage` when there is no envelope or it is not ASCII, then the passphrase gate's error, then the outcome of one library call. That call gets the envelope bytes, signature verification off, the contact's key only, and the given passphrase for every key. The review counter rises by one exactly on success. |
| CryptographyService.RecipientContacts | PGPro/Global/Model/Services/CryptographyService.swift:171 | The private-key contacts whose key ID is among the recipients: an order-preserving subsequence. A contact is in it iff it is a private-key contact with a listed ID, and every such contact keeps all its copies. |
| CryptographyService.DecryptionContacts | PGPro/Global/Model/Services/CryptographyService.swift:140-172 | `[]` for an empty message, a missing or non-ASCII envelope, or a failed recipient lookup. Otherwise the recipient contacts. Always a subsequence of the private-key contacts. |
| CryptographyService.AppStoreReviewService.IncrementReviewWorthyActionCount | PGPro/Global/Model/Services/CryptographyService.swift:82 | The counter rises by exactly one. |
| Armor.FindEnvelope | PGPro/Global/Model/Services/CryptographyService.swift:95-96 | The range `range(of:options: .regularExpression)` returns. It is nil iff no range matches the pattern. Otherwise it matches the pattern, and it is the leftmost match and the longest at that start. No BEGIN marker lies before it, and no END marker ends after it. |
| Armor.ExtractArmoredMessage | PGPro/Global/Model/Services/CryptographyService.swift:95-99 | The trimmed message is nil iff nothing matches. Otherwise it is exactly the input's text over the envelope's range: from the first BEGIN line to the last END line after it. So it starts with the BEGIN line and ends with the END line. |
| Armor.GapAcceptsEveryChar | PGPro/Global/Model/Services/CryptographyService.swift:95 | `(.\|\s)` accepts every character, because ICU white space includes every line terminator. |
| Armor.ConcatenatedMessagesStayTogether | PGPro/Global/Model/Services/CryptographyService.swift:149-154 | Two armored messages with anything between them are extracted as a single envelope spanning both. |
| Armor.FirstOccurrence | PGPro/Global/Model/Services/CryptographyService.swift:149 | The first position at or after a start where a marker occurs, or none when there is none. |
| Armor.LastOccurrence | PGPro/Global/Model/Services/CryptographyService.swift:149 | The last position at or after a start where a marker occurs, or none when there is none. |
| Text.AsciiData | PGPro/Global/Model/Services/CryptographyService.swift:100 | `data(using: .ascii)` succeeds iff every character is below 128. The bytes are the character codes. |
| Text.Lower | PGPro/Keychain/Controller/KeychainViewController.swift:273-274 | `lowercased()` keeps the length and lowers each character. |
| Text.LowerChar | PGPro/Keychain/Controller/KeychainViewController.swift:273 | An upper-case ASCII letter becomes its lower-case form. Everything else is unchanged. |
| Text.LowerIsIdempotent | PGPro/Keychain/Controller/KeychainViewController.swift:273-274 | Lower-casing a lower-cased string changes nothing. |
| Text.NatToString | PGPro/Keychain/Controller/KeychainViewController.swift:246-248 | The interpolated count is a non-empty run of decimal digits with no leading zero. |
| Text.NatToStringRoundTrip | PGPro/Keychain/Controller/KeychainViewController.swift:246-248 | Reading the rendered digits back gives the count. |
| Sequences.Filter | PGPro/Keychain/Controller/KeychainViewController.swift:267 | Swift's `filter`: an order-preserving subsequence holding exactly the kept elements, each with all its copies. It is the whole list when everything is kept. |
| Sequences.Contains | PGPro/Keychain/Controller/KeychainViewController.swift:273-274 | `contains` on strings holds iff the needle occurs at some position of the text. |
| Sequences.RemoveAt | PGPro/Keychain/Controller/KeychainViewController.swift:380 | `remove(at:)` shortens the list by one. The elements before the index stay put and the ones after it move down by one. |
| Sequences.RemoveAtIsSubsequence | PGPro/Keychain/Controller/KeychainViewController.swift:380 | The remaining elements keep their relative order. |
| Sequences.RemoveAtTakesOneCopy | PGPro/Keychain/Controller/KeychainViewController.swift:380 | Exactly one copy of the removed element leaves the list. |
| Keychain.SearchFilter | PGPro/Keychain/Controller/KeychainViewController.swift:266-277 | With a nil or empty search bar, every contact is kept. Otherwise a contact is kept iff its lower-cased name or e-mail contains the lower-cased search text. Each matching contact keeps all its copies and each other contact has none. Always an order-preserving subsequence of the contacts. |
| Keychain.SearchIgnoresCase | PGPro/Keychain/Controller/KeychainViewController.swift:273-274 | A query and its lower-cased form match the same contacts. |
| Keychain.KeychainViewController.FilterContactsForSearchText | PGPro/Keychain/Controller/KeychainViewController.swift:266-279 | `filteredContacts` becomes the filter of `contacts`. Nothing else changes. |
| Keychain.KeychainViewController.UpdateSearchResults | PGPro/Keychain/Controller/KeychainViewController.swift:468-473 | The list is filtered by the search bar's own text. While filtering, it holds exactly the matching contacts. |
| Keychain.KeychainViewController.IsFiltering | PGPro/Keychain/Controller/KeychainViewController.swift:281-284 | Filtering iff the search controller is active and the search bar has a non-nil, non-empty text. |
| Keychain.KeychainViewController.NumberOfRows | PGPro/Keychain/Controller/KeychainViewController.swift:306-316 | While filtering, the count is `filteredContacts.count`. With `hideKeychain`, it is `yubikey`, so at most one. Otherwise it is `contacts.count + yubikey`. |
| Keychain.KeychainViewController.Yubikey | PGPro/Keychain/Controller/KeychainViewController.swift:302-304 | 0 or 1, and 1 exactly when the YubiKey preference is on. |
| Keychain.KeychainViewController.ContactIndex | PGPro/Keychain/Controller/KeychainViewController.swift:322-325 | While filtering, the index is the row. Otherwise it is the row minus the YubiKey offset. |
| Keychain.KeychainViewController.RowTarget | PGPro/Keychain/Controller/KeychainViewController.swift:318-330 | As written. The YubiKey cell appears exactly on row 0 when not filtering and the preference is on. Other rows of the full list show `contacts[row - yubikey]`. A filtered row below the row count shows `filteredContacts[row]` whenever `row < contacts.count`. It traps when the filtered list is longer and the row is past the end of `contacts`. |
| Keychain.KeychainViewController.IntendedRowTarget | PGPro/Keychain/Controller/KeychainViewController.swift:441-449 | Every row below the row count shows something, whatever the lists' lengths. The YubiKey cell is on the same row as before. It agrees with the as-written mapping wherever that one does not trap. |
| Keychain.KeychainViewController.CommitEditing | PGPro/Keychain/Controller/KeychainViewController.swift:339-393 | The YubiKey row, a non-delete style or a cancelled alert change nothing. A confirmed delete while filtering takes exactly `filteredContacts[row]` out in place, removes that contact, and reloads `contacts`. A confirmed delete of the full list removes `contacts[row - yubikey]` and reloads `contacts` while the filtered list stays as it was. |
| Keychain.KeychainViewController.constructor | PGPro/Keychain/Controller/KeychainViewController.swift:69-72 | After loading: the keychain's contacts, an empty filtered list, and no active search. |
| Keychain.FilteredDeletionKeepsTheRest | PGPro/Keychain/Controller/KeychainViewController.swift:377-381 | A filtered delete keeps the other contacts in order and drops exactly one copy of the deleted one. |
| Keychain.RowsCoverTheList | PGPro/Keychain/Controller/KeychainViewController.swift:306-316 | While filtering, the count is `filteredContacts.count`. With `hideKeychain`, it is `yubikey`. Otherwise it is `contacts.count + yubikey`. In each case, every contact on screen is on its own row. |
| Keychain.ContactIndexInBounds | PGPro/Keychain/Controller/KeychainViewController.swift:319-325 | Below the row count, every non-YubiKey row's contact index lies inside the list on screen. |
| KeychainImport.ImportPickedFiles | PGPro/Keychain/Controller/KeychainViewController.swift:480-503 | The loop's result is the sum over the files of what each contributes. |
| KeychainImport.PrefixTotalsIgnoreLaterFiles | PGPro/Keychain/Controller/KeychainViewController.swift:483-500 | The totals over the first files do not depend on the files picked after them. |
| KeychainImport.ImportTotalsAppend | PGPro/Keychain/Controller/KeychainViewController.swift:483-500 | One more file adds exactly its own contribution to the totals. |
| KeychainImport.UnreadableFileChangesNothing | PGPro/Keychain/Controller/KeychainViewController.swift:496-498 | A file whose read throws changes no counter. |
| KeychainImport.KeylessFileCountsOneUnsupported | PGPro/Keychain/Controller/KeychainViewController.swift:487-490 | A file with no keys adds one to `unsupported` and nothing to the other two counters, whatever the import service would say. |
| KeychainImport.CountPhrase | PGPro/Keychain/Controller/KeychainViewController.swift:246-248 | An alert line starts with the count's digits, which read back to the count. Then come a space and the noun. The character after the noun is the plural `s` exactly when the count is not one. |

## Left out

- **ObjectivePGP.** Encryption, decryption, signing, key unlocking, recipient-ID parsing and `Armor.armored` are collaborator functions with no properties assumed. So round trips (decrypting what was encrypted) and wrong-key behaviour are not stated.
- **Randomness of encryption.** As Dafny function values, the collaborators are deterministic: the same input always gives the same ciphertext, whereas real OpenPGP encryption uses fresh random session keys. Nothing in the model is proved from this determinism.
- **Collaborator services.** `MimeParsingService.parse`, `ContactListService` (`get(forKey:)`, `get(ofType:)`, `remove`, `importFrom`) and `KeyConstructionService` are not part of this model. Their results are parameters: `relisted`, `privateKeyContacts` and each picked file's outcome.
- CryptographyService.SignerPassphrase: both force-unwraps in `encrypt`'s passphrase callback, `passphrase!` and `contact!`, are modelled as "no passphrase" instead of a crash. The first crashes when no handler was given and the library still asks for a passphrase. That happens without signers too, because the library signs with any private key among the recipients. The second crashes when no contact owns the key.
- **The debug-only `assert(keys.count > 0)` in `encrypt`.** It has no effect in release builds and is not modelled.
- **`encrypt`'s `invalidMessage` path.** It is unreachable: every Swift `String`, like every Dafny `string`, encodes to UTF-8.
- **The review counter's storage and the review prompt.** The counter is a plain field with no persistence.
- **Logging.** It has no effect.
- **Text model.**
  - Keychain.SearchFilter: `lowercased()` is modelled as ASCII case folding, not the full Unicode tables.
  - Text.Lower: the same ASCII folding.
  - Strings are sequences of Unicode scalar values, and `contains` is compared per scalar rather than per grapheme cluster.
- **UIKit plumbing.** This covers table reloads, row-deletion animation, alerts and action sheets, the document picker, clipboard access, NotificationCenter observers, the `reloadData` dispatch, localisation strings, and YubiKey hardware access.
- **Deletion timing.** Keychain.KeychainViewController.CommitEditing folds the confirmation alert into one step (`confirmed`). It reads `isFiltering()` at commit time, whereas the app re-reads it when the alert's handler runs.
- **KeychainImport.ImportSummary has no contract of its own.** It joins three `CountPhrase` lines with ` \n `, and the properties of each line are stated on KeychainImport.CountPhrase.
- **`plus(sender:)`, `addKeyFromClipboard`, `yubiKeyCellTapped` and `textFieldShouldReturn`.** They are UI and I/O only.

## Findings

| source | as written | input that shows it | evidently intended | confidence | as-written member | corrected member |
|---|---|---|---|---|---|---|
| PGPro/Keychain/Controller/KeychainViewController.swift:327-330 | `cellForRowAt` (and `didSelectRowAt`, lines 446-449) reads `contacts[contactIndex]` before replacing it with `filteredContacts[contactIndex]` while filtering. That subscript traps whenever the filtered list is longer than `contacts`. | A search matches every contact. Then a contact is deleted elsewhere: `reloadData` refreshes `contacts` but not `filteredContacts`. The row numbered `contacts.count` of the filtered table now traps. | Read only the list on screen: `filteredContacts` while filtering, `contacts` otherwise. | medium, not executed | Keychain.KeychainViewController.RowTarget | Keychain.KeychainViewController.IntendedRowTarget |

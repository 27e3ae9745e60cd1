/** The list logic of the keychain screen: the search filter, the mapping between table rows
    and contacts with the optional YubiKey row on top, deletion of a row, and the summary of a
    key import from several files. Table-view, alert and picker plumbing is left to UIKit. */
module Keychain {
  import opened Wrappers
  import opened Sequences
  import opened Text
  import opened Contacts

  /** `searchBar.text?.isEmpty ?? true`: no search text, or an empty one. */
  predicate SearchTextIsEmpty(text: Option<string>) {
    text.None? || text.value == []
  }

  /** A contact matches when its lower-cased name or e-mail contains the lower-cased text. */
  predicate MatchesSearch(contact: Contact, searchText: string) {
    Contains(Lower(contact.name), Lower(searchText)) || Contains(Lower(contact.email), Lower(searchText))
  }

  /** Matching ignores case in the search text: a lower-cased query finds the same contacts. */
  lemma {:induction false} SearchIgnoresCase(contact: Contact, searchText: string)
    ensures MatchesSearch(contact, searchText) == MatchesSearch(contact, Lower(searchText))
  {
    LowerIsIdempotent(searchText);
  }

  /** The list `filterContactsforSearchText` computes: every contact while the search bar is
      empty, otherwise the matching ones, always in the keychain's order. */
  function SearchFilter(contacts: seq<Contact>, searchBarText: Option<string>, searchText: string)
    : (r: seq<Contact>)
    ensures SearchTextIsEmpty(searchBarText) ==> r == contacts
    ensures !SearchTextIsEmpty(searchBarText) ==>
              forall c :: c in r <==> c in contacts && MatchesSearch(c, searchText)
    ensures !SearchTextIsEmpty(searchBarText) ==>
              forall c :: multiset(r)[c] == if MatchesSearch(c, searchText) then multiset(contacts)[c] else 0
    ensures IsSubsequence(r, contacts)
  {
    Filter(contacts, (c: Contact) => SearchTextIsEmpty(searchBarText) || MatchesSearch(c, searchText))
  }

  /** What a table row shows and what tapping it opens. */
  datatype Row = YubikeyRow | ContactRow(contact: Contact)

  datatype EditingStyle = NoEditing | Delete | Insert

  class KeychainViewController {
    var contacts: seq<Contact>
    var filteredContacts: seq<Contact>
    /** `searchController.isActive` */
    var searchIsActive: bool
    /** `searchController.searchBar.text` */
    var searchBarText: Option<string>
    /** `Preferences.yubikey` */
    var yubikeyPreference: bool
    /** `Preferences.Development.hideKeychain` */
    var hideKeychain: bool

    /** The screen after `viewDidLoad`: the keychain's contacts loaded, no search yet. */
    constructor (contacts: seq<Contact>, yubikeyPreference: bool, hideKeychain: bool)
      ensures this.contacts == contacts && filteredContacts == []
      ensures !searchIsActive && searchBarText == None
      ensures this.yubikeyPreference == yubikeyPreference && this.hideKeychain == hideKeychain
    {
      this.contacts := contacts;
      filteredContacts := [];
      searchIsActive := false;
      searchBarText := None;
      this.yubikeyPreference := yubikeyPreference;
      this.hideKeychain := hideKeychain;
    }

    /** `filterContactsforSearchText(searchText:)` */
    method FilterContactsForSearchText(searchText: string)
      modifies this`filteredContacts
      ensures filteredContacts == SearchFilter(contacts, searchBarText, searchText)
    {
      filteredContacts := SearchFilter(contacts, searchBarText, searchText);
    }

    /** `updateSearchResults(for:)` and `searchBarSearchButtonClicked(_:)`: filter by the
        search bar's own text. */
    method UpdateSearchResults()
      modifies this`filteredContacts
      ensures filteredContacts == SearchFilter(contacts, searchBarText, searchBarText.GetOr(""))
      ensures IsFiltering() ==> forall c :: c in filteredContacts <==> c in contacts && MatchesSearch(c, searchBarText.value)
    {
      FilterContactsForSearchText(searchBarText.GetOr(""));
    }

    /** `isFiltering()`: a search is active and its text is not empty. */
    function IsFiltering(): (filtering: bool)
      reads this`searchIsActive, this`searchBarText
      ensures filtering <==> searchIsActive && searchBarText.Some? && |searchBarText.value| > 0
    {
      searchIsActive && !SearchTextIsEmpty(searchBarText)
    }

    /** `yubikey`: the number of YubiKey rows on top of the list. */
    function Yubikey(): (n: nat)
      reads this`yubikeyPreference
      ensures n <= 1 && (n == 1 <==> yubikeyPreference)
    {
      if yubikeyPreference then 1 else 0
    }

    /** `tableView(_:numberOfRowsInSection:)` */
    function NumberOfRows(): (n: nat)
      reads this
      ensures IsFiltering() ==> n == |filteredContacts|
      ensures !IsFiltering() && hideKeychain ==> n == Yubikey() && n <= 1
      ensures !IsFiltering() && !hideKeychain ==> n == |contacts| + Yubikey()
    {
      if IsFiltering() then |filteredContacts|
      else if hideKeychain then Yubikey()
      else |contacts| + Yubikey()
    }

    /** The row that shows the YubiKey cell and can never be deleted. */
    predicate IsYubikeyRow(row: nat)
      reads this`searchIsActive, this`searchBarText, this`yubikeyPreference
    {
      !IsFiltering() && row == 0 && yubikeyPreference
    }

    /** `contactIndex` as the row handlers compute it: shifted past the YubiKey row, and the
        shift undone while filtering. */
    function ContactIndex(row: nat): (index: int)
      reads this`searchIsActive, this`searchBarText, this`yubikeyPreference
      ensures IsFiltering() ==> index == row
      ensures !IsFiltering() ==> index == row - Yubikey()
    {
      var index := row - Yubikey();
      if IsFiltering() then index + Yubikey() else index
    }

    /** `tableView(_:cellForRowAt:)` and `tableView(_:didSelectRowAt:)` as written: both read
        `contacts[contactIndex]` before picking `filteredContacts[contactIndex]` while
        filtering. `None` is an out-of-range subscript, which traps. */
    function RowTarget(row: nat): (r: Option<Row>)
      reads this
      ensures r == Some(YubikeyRow) <==> IsYubikeyRow(row)
      ensures row < NumberOfRows() && !IsFiltering() && !IsYubikeyRow(row) ==>
                r == Some(ContactRow(contacts[row - Yubikey()]))
      ensures row < NumberOfRows() && IsFiltering() && row < |contacts| ==>
                r == Some(ContactRow(filteredContacts[row]))
      ensures IsFiltering() && |contacts| <= row < |filteredContacts| ==> r == None
    {
      if IsYubikeyRow(row) then Some(YubikeyRow)
      else
        var index := ContactIndex(row);
        if !(0 <= index < |contacts|) then None
        else if IsFiltering() then
          if index < |filteredContacts| then Some(ContactRow(filteredContacts[index])) else None
        else Some(ContactRow(contacts[index]))
    }

    /** The same handlers reading only the list on screen: every row of the table then shows
        something, whatever the two lists' lengths, and it is what `RowTarget` shows wherever
        that one does not trap. */
    function IntendedRowTarget(row: nat): (r: Option<Row>)
      reads this
      ensures row < NumberOfRows() ==> r.Some?
      ensures r == Some(YubikeyRow) <==> IsYubikeyRow(row)
      ensures RowTarget(row).Some? ==> r == RowTarget(row)
    {
      if IsYubikeyRow(row) then Some(YubikeyRow)
      else
        var index := ContactIndex(row);
        var shown := if IsFiltering() then filteredContacts else contacts;
        if 0 <= index < |shown| then Some(ContactRow(shown[index])) else None
    }

    /** `tableView(_:commit:forRowAt:)` with the user's answer to the confirmation alert. The
        YubiKey row is refused before anything else; a confirmed deletion while filtering takes
        the row out of `filteredContacts` in place; either way the contact goes to
        `ContactListService.remove` (returned here) and `contacts` is reloaded from the
        service (`relisted`). */
    method CommitEditing(row: nat, style: EditingStyle, confirmed: bool, relisted: seq<Contact>)
      returns (removed: Option<Contact>)
      requires row < NumberOfRows()
      modifies this`contacts, this`filteredContacts
      ensures IsYubikeyRow(row) || style != Delete || !confirmed ==>
                removed == None && contacts == old(contacts) && filteredContacts == old(filteredContacts)
      ensures !IsYubikeyRow(row) && style == Delete && confirmed && IsFiltering() ==>
                && removed == Some(old(filteredContacts)[row])
                && filteredContacts == RemoveAt(old(filteredContacts), row)
                && contacts == relisted
      ensures !IsYubikeyRow(row) && style == Delete && confirmed && !IsFiltering() ==>
                && removed == Some(old(contacts)[row - Yubikey()])
                && filteredContacts == old(filteredContacts)
                && contacts == relisted
    {
      if IsYubikeyRow(row) {
        return None;
      }
      var contactIndex := row - Yubikey();
      if IsFiltering() {
        contactIndex := contactIndex + Yubikey();
      }
      removed := None;
      if style == Delete && confirmed {
        if IsFiltering() {
          var cntct := filteredContacts[contactIndex];
          filteredContacts := RemoveAt(filteredContacts, contactIndex);
          removed := Some(cntct);
          contacts := relisted;
        } else {
          removed := Some(contacts[contactIndex]);
          contacts := relisted;
        }
      }
    }
  }

  /** A filtered deletion keeps the rest of the filtered list in order and drops exactly one
      copy of the deleted contact. */
  lemma FilteredDeletionKeepsTheRest(filtered: seq<Contact>, row: nat)
    requires row < |filtered|
    ensures IsSubsequence(RemoveAt(filtered, row), filtered)
    ensures multiset(RemoveAt(filtered, row)) == multiset(filtered) - multiset{filtered[row]}
  {
    RemoveAtIsSubsequence(filtered, row);
    RemoveAtTakesOneCopy(filtered, row);
  }

  /** Below the row count, every row other than the YubiKey row has its contact index inside
      the list on screen. */
  lemma ContactIndexInBounds(v: KeychainViewController, row: nat)
    requires row < v.NumberOfRows() && !v.IsYubikeyRow(row)
    ensures v.IsFiltering() ==> 0 <= v.ContactIndex(row) < |v.filteredContacts|
    ensures !v.IsFiltering() ==> 0 <= v.ContactIndex(row) < |v.contacts|
  {
  }

  /** Every contact on screen has exactly its own row: after the YubiKey row when the full
      keychain is listed, at its own position when filtering. */
  lemma {:induction false} RowsCoverTheList(v: KeychainViewController)
    ensures !v.IsFiltering() && !v.hideKeychain ==>
              v.NumberOfRows() == |v.contacts| + v.Yubikey()
              && forall i :: 0 <= i < |v.contacts| ==> v.IntendedRowTarget(i + v.Yubikey()) == Some(ContactRow(v.contacts[i]))
    ensures !v.IsFiltering() && v.hideKeychain ==>
              v.NumberOfRows() == v.Yubikey() && (v.yubikeyPreference ==> v.IntendedRowTarget(0) == Some(YubikeyRow))
    ensures v.IsFiltering() ==>
              v.NumberOfRows() == |v.filteredContacts|
              && forall i :: 0 <= i < |v.filteredContacts| ==> v.IntendedRowTarget(i) == Some(ContactRow(v.filteredContacts[i]))
  {
  }
}

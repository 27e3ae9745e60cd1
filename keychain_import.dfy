/** The key-import side of the keychain screen: adding up what importing several picked files
    reports, and the summary alert that shows the totals. Reading the files and importing the
    keys are done by services outside this model; their results are inputs here. */
module KeychainImport {
  import opened Text
  import opened Contacts

  /** `ContactListResult`: what an import reports. */
  datatype ContactListResult = ContactListResult(successful: nat, unsupported: nat, duplicates: nat)

  function Add(a: ContactListResult, b: ContactListResult): ContactListResult {
    ContactListResult(a.successful + b.successful, a.unsupported + b.unsupported, a.duplicates + b.duplicates)
  }

  /** One picked file: unreadable (`KeyConstructionService.fromFile` throws), or the keys read
      from it together with what `ContactListService.importFrom` reports for them. */
  datatype PickedFile = Unreadable | Read(keys: seq<Key>, imported: ContactListResult)

  /** What one file adds to the totals: nothing when unreadable, one unsupported key when it
      held no key, otherwise the service's own counts. */
  function FileContribution(file: PickedFile): ContactListResult {
    match file
    case Unreadable => ContactListResult(0, 0, 0)
    case Read(keys, imported) => if |keys| == 0 then ContactListResult(0, 1, 0) else imported
  }

  /** The totals over the first `n` files: the sum of what each of them contributes. */
  function PrefixTotals(files: seq<PickedFile>, n: nat): ContactListResult
    requires n <= |files|
    decreases n
  {
    if n == 0 then ContactListResult(0, 0, 0) else Add(PrefixTotals(files, n - 1), FileContribution(files[n - 1]))
  }

  function ImportTotals(files: seq<PickedFile>): ContactListResult {
    PrefixTotals(files, |files|)
  }

  /** The totals of the first files do not depend on the files picked after them. */
  lemma {:induction false} PrefixTotalsIgnoreLaterFiles(files: seq<PickedFile>, later: seq<PickedFile>, n: nat)
    requires n <= |files|
    ensures PrefixTotals(files + later, n) == PrefixTotals(files, n)
    decreases n
  {
    if n > 0 {
      PrefixTotalsIgnoreLaterFiles(files, later, n - 1);
      assert (files + later)[n - 1] == files[n - 1];
    }
  }

  /** Picking one more file adds exactly that file's contribution to the totals. */
  lemma ImportTotalsAppend(files: seq<PickedFile>, file: PickedFile)
    ensures ImportTotals(files + [file]) == Add(ImportTotals(files), FileContribution(file))
  {
    PrefixTotalsIgnoreLaterFiles(files, [file], |files|);
  }

  /** A file that cannot be read changes no counter. */
  lemma UnreadableFileChangesNothing(files: seq<PickedFile>)
    ensures ImportTotals(files + [Unreadable]) == ImportTotals(files)
  {
    ImportTotalsAppend(files, Unreadable);
  }

  /** A readable file without keys counts as one unsupported key and nothing else, whatever the
      service would have reported. */
  lemma KeylessFileCountsOneUnsupported(files: seq<PickedFile>, imported: ContactListResult)
    ensures var before := ImportTotals(files);
            var after := ImportTotals(files + [Read([], imported)]);
            after.successful == before.successful
            && after.unsupported == before.unsupported + 1
            && after.duplicates == before.duplicates
  {
    ImportTotalsAppend(files, Read([], imported));
  }

  /** `documentPicker(_:didPickDocumentsAt:)`: add up the import results of every picked file. */
  method ImportPickedFiles(files: seq<PickedFile>) returns (importResult: ContactListResult)
    ensures importResult == ImportTotals(files)
  {
    importResult := ContactListResult(0, 0, 0);
    for i := 0 to |files|
      invariant importResult == PrefixTotals(files, i)
    {
      match files[i]
      case Unreadable =>
        continue;
      case Read(readKeys, results) =>
        if |readKeys| == 0 {
          importResult := importResult.(unsupported := importResult.unsupported + 1);
          continue;
        }
        importResult := importResult.(successful := importResult.successful + results.successful);
        importResult := importResult.(unsupported := importResult.unsupported + results.unsupported);
        importResult := importResult.(duplicates := importResult.duplicates + results.duplicates);
    }
  }

  /** One line of the import alert: the count, the noun, an "s" unless the count is one, and
      the rest of the sentence. The count can be read back from the leading digits, and the
      character after the noun is the plural "s" exactly when the count is not one. */
  function CountPhrase(n: nat, noun: string, rest: string): (r: string)
    ensures var digits := NatToString(n);
            && |r| > |digits| + 1 + |noun|
            && r[..|digits|] == digits
            && DecimalValue(r[..|digits|]) == n
            && r[|digits|] == ' '
            && r[|digits| + 1..|digits| + 1 + |noun|] == noun
            && r[|digits| + 1 + |noun|] == (if n == 1 then ' ' else 's')
  {
    NatToStringRoundTrip(n);
    NatToString(n) + " " + noun + (if n == 1 then "" else "s") + " " + rest
  }

  /** The message of `alert(_ result:)`. */
  function ImportSummary(result: ContactListResult): string {
    CountPhrase(result.successful, "key", "successfully imported") + " \n "
    + CountPhrase(result.unsupported, "unsupported key", "skipped") + " \n "
    + CountPhrase(result.duplicates, "duplicate key", "skipped")
  }
}

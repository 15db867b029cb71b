/** The upload form of classifier/forms.py: a file field whose cleaning
    accepts only names ending in ".csv". */
module Forms {
  import opened Wrappers

  /** An uploaded file: its client-side name and its bytes. */
  datatype UploadedFile = UploadedFile(name: string, content: string)

  const CsvSuffix: string := ".csv"
  const NotCsvMessage: string := "File must be a CSV"

  /** `str.endswith`: a case-sensitive comparison of the last characters. */
  predicate EndsWith(s: string, suffix: string) {
    |suffix| <= |s| && s[|s| - |suffix|..] == suffix
  }

  /** `CSVUploadForm.clean_file`: the file itself when its name ends in
      ".csv", a validation error otherwise. */
  function CleanFile(file: UploadedFile): (r: Result<UploadedFile, string>)
    ensures r.Success? ==> r.value == file
    ensures r.Failure? ==> r.error == NotCsvMessage
  {
    if EndsWith(file.name, CsvSuffix) then Success(file) else Failure(NotCsvMessage)
  }

  /** Every name made of some stem followed by ".csv" is accepted, the
      empty stem included. */
  lemma {:induction false} AcceptsCsvStem(stem: string, content: string)
    ensures CleanFile(UploadedFile(stem + CsvSuffix, content)) == Success(UploadedFile(stem + CsvSuffix, content))
  {
    var name := stem + CsvSuffix;
    assert name[|name| - |CsvSuffix|..] == CsvSuffix;
  }

  /** An accepted name is a stem followed by ".csv". */
  lemma {:induction false} AcceptedHasCsvStem(file: UploadedFile)
    requires CleanFile(file).Success?
    ensures |file.name| >= 4 && file.name == file.name[..|file.name| - 4] + CsvSuffix
  {
    var n := |file.name|;
    assert file.name == file.name[..n - 4] + file.name[n - 4..];
  }

  /** The check is case-sensitive: an upper-case extension is refused. */
  lemma {:induction false} RejectsUpperCaseSuffix(stem: string, content: string)
    ensures CleanFile(UploadedFile(stem + ".CSV", content)) == Failure(NotCsvMessage)
  {
    var name := stem + ".CSV";
    assert name[|name| - 4..] == ".CSV";
    assert ".CSV"[1] != CsvSuffix[1];
  }

  /** A name that is exactly ".csv" passes, since only the suffix is looked at. */
  lemma BareSuffixAccepted(content: string)
    ensures CleanFile(UploadedFile(".csv", content)).Success?
  {
    AcceptsCsvStem("", content);
    assert "" + CsvSuffix == ".csv";
  }
}

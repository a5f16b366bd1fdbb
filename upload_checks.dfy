/**
 * What the poster and receipt services share: the validation record their
 * validators return, and the upload check of `validateFile`, which differs
 * between them only in the size limit, its message and the suggestions.
 *
 * Each validator pushes messages onto local arrays one check at a time;
 * the model has that as a method, proved equal to a function that keeps,
 * in order, the message of each check that fired.
 */
module UploadChecks {
  import opened Collections

  /** `PosterValidation` / `ReceiptValidation` */
  datatype Validation = Validation(isValid: bool, errors: seq<string>, warnings: seq<string>, suggestions: seq<string>)

  /** The record of a set of checks: valid exactly when no error fired. */
  function Outcome(errors: seq<string>, warnings: seq<string>, suggestions: seq<string>): (v: Validation)
    ensures v.isValid <==> v.errors == []
    ensures v.errors == errors && v.warnings == warnings && v.suggestions == suggestions
  {
    Validation(|errors| == 0, errors, warnings, suggestions)
  }

  /** The parts of a browser `File` the services read; the size is in bytes. */
  datatype FileInfo = FileInfo(name: string, size: nat, mime: string)

  const AllowedTypes: seq<string> := ["image/jpeg", "image/jpg", "image/png", "image/webp"]
  const TypeError: string := "Format file tidak didukung. Gunakan JPG, PNG, atau WebP."
  const SmallFileWarning: string := "Ukuran file kecil. Pastikan gambar cukup jelas."
  /** Files under 100 KiB draw the warning. */
  const SmallFileSize: nat := 100 * 1024

  /** Whether an upload is refused: a type outside the list, or more bytes than the limit. */
  predicate Refused(file: FileInfo, maxSize: nat) {
    file.mime !in AllowedTypes || file.size > maxSize
  }

  /** One check: its message is pushed exactly when it fires. */
  function Checked(messages: seq<string>, fired: bool, message: string): seq<string> {
    if fired then messages + [message] else messages
  }

  /** `validateFile` with the limit, its message and the three suggestions of the service. */
  function FileValidation(file: FileInfo, maxSize: nat, sizeError: string, suggestions: seq<string>): Validation {
    Outcome(Checked(Checked([], file.mime !in AllowedTypes, TypeError), file.size > maxSize, sizeError),
      Checked([], file.size < SmallFileSize, SmallFileWarning), suggestions)
  }

  /** `validateFile` as the services write it, pushing one message per failed check. */
  method ValidateFile(file: FileInfo, maxSize: nat, sizeError: string, suggestions: seq<string>) returns (v: Validation)
    ensures v == FileValidation(file, maxSize, sizeError, suggestions)
  {
    var errors: seq<string> := [];
    var warnings: seq<string> := [];
    if file.mime !in AllowedTypes {
      errors := errors + [TypeError];
    }
    if file.size > maxSize {
      errors := errors + [sizeError];
    }
    if file.size < SmallFileSize {
      warnings := warnings + [SmallFileWarning];
    }
    v := Validation(|errors| == 0, errors, warnings, suggestions);
  }

  /**
   * The type is checked before the size, so a file that fails both reports
   * the type first; the file is accepted exactly when it is not refused; the
   * warning is about small files only; the suggestions are always the same.
   */
  lemma FileValidationMeaning(file: FileInfo, maxSize: nat, sizeError: string, suggestions: seq<string>)
    requires sizeError != TypeError
    ensures var v := FileValidation(file, maxSize, sizeError, suggestions);
      (TypeError in v.errors <==> file.mime !in AllowedTypes)
      && (sizeError in v.errors <==> file.size > maxSize)
      && IsSubsequence(v.errors, [TypeError, sizeError])
      && (v.isValid <==> !Refused(file, maxSize))
      && (v.errors != [] ==> v.errors[0] == if file.mime !in AllowedTypes then TypeError else sizeError)
      && (SmallFileWarning in v.warnings <==> file.size < SmallFileSize) && |v.warnings| <= 1
      && v.suggestions == suggestions
  {
    TwoChecks(TypeError, sizeError, file.mime !in AllowedTypes, file.size > maxSize);
  }

  /** Checks made one after another push the messages of those that fired, in order. */
  lemma CheckedIsFlagged(a: string, b: string, c: string, p: bool, q: bool, r: bool)
    ensures Checked(Checked([], p, a), q, b) == Flagged([a, b], [p, q])
    ensures Checked(Checked(Checked([], p, a), q, b), r, c) == Flagged([a, b, c], [p, q, r])
  {
    CheckedTwice(a, b, p, q);
    FlaggedSnoc([a, b], [p, q], c, r);
    assert [a, b] + [c] == [a, b, c] && [p, q] + [r] == [p, q, r];
  }

  lemma CheckedTwice(a: string, b: string, p: bool, q: bool)
    ensures Checked(Checked([], p, a), q, b) == Flagged([a, b], [p, q])
  {
    FlaggedSnoc([], [], a, p);
    assert [] + [a] == [a] && [] + [p] == [p];
    FlaggedSnoc([a], [p], b, q);
    assert [a] + [b] == [a, b] && [p] + [q] == [p, q];
  }

  /** What two checks with different messages report. */
  lemma TwoChecks(a: string, b: string, p: bool, q: bool)
    requires a != b
    ensures var e := Checked(Checked([], p, a), q, b);
      (a in e <==> p) && (b in e <==> q) && IsSubsequence(e, [a, b])
      && (p ==> e[0] == a) && (!p && q ==> e == [b]) && (e == [] <==> !p && !q)
  {
    CheckedTwice(a, b, p, q);
    FlaggedInOrder([a, b], [p, q]);
  }

  /** What three checks with different messages report. */
  lemma ThreeChecks(a: string, b: string, c: string, p: bool, q: bool, r: bool)
    requires a != b && a != c && b != c
    ensures var e := Checked(Checked(Checked([], p, a), q, b), r, c);
      (a in e <==> p) && (b in e <==> q) && (c in e <==> r) && IsSubsequence(e, [a, b, c])
      && (p ==> e[0] == a) && (e == [] <==> !p && !q && !r)
  {
    CheckedIsFlagged(a, b, c, p, q, r);
    FlaggedInOrder([a, b, c], [p, q, r]);
  }
}

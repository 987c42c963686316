/**
 * The `/api/upload` route: accept the multipart `file` field if it is an
 * image, store it under `<timestamp>-<sanitised name>` in the public logos
 * folder and reply with its public path `/logos/<filename>`.
 *
 * The clock reading is a parameter, and the folder is a map from file name
 * to contents that the handler updates.
 */
module UploadRoute {
  import opened Wrappers
  import opened Ascii
  import opened Http

  newtype byte = x: int | 0 <= x < 256

  /** A value of the form's `file` field: an uploaded file, or a plain text entry. */
  datatype FormValue =
    | FileValue(name: string, mimeType: string, bytes: seq<byte>)
    | TextValue(text: string)

  /** The JSON payload of a reply. */
  datatype UploadReply = Uploaded(path: string) | UploadError(message: string)

  const NO_FILE := "Ingen fil lastet opp"
  const INVALID_FILE := "Ugyldig fil"
  const IMAGES_ONLY := "Kun bildefiler er tillatt"
  const UPLOAD_FAILED := "Feil ved opplasting av fil"

  const IMAGE_PREFIX := "image/"
  const LOGOS_PREFIX := "/logos/"

  predicate StartsWith(s: string, prefix: string)
  {
    |prefix| <= |s| && s[..|prefix|] == prefix
  }

  // ---------------------------------------------------------------------
  // Filename sanitising: `name.replace(/[^a-zA-Z0-9.-]/g, '_')`
  // ---------------------------------------------------------------------

  /** The characters the sanitiser keeps: `[a-zA-Z0-9.-]`. */
  predicate IsSafeChar(c: char)
  {
    IsUpper(c) || IsLower(c) || IsDigit(c) || c == '.' || c == '-'
  }

  /** The characters a sanitised name can contain: `[a-zA-Z0-9._-]`. */
  predicate IsStoredNameChar(c: char)
  {
    IsSafeChar(c) || c == '_'
  }

  function SanitizeChar(c: char): char
  {
    if IsSafeChar(c) then c else '_'
  }

  /** Every character outside `[a-zA-Z0-9.-]` becomes '_'. */
  function Sanitize(name: string): (r: string)
    ensures |r| == |name|
    ensures forall i :: 0 <= i < |r| ==> IsStoredNameChar(r[i])
    ensures forall i :: 0 <= i < |r| ==> r[i] != '/' && r[i] != '\\'
  {
    if name == [] then [] else [SanitizeChar(name[0])] + Sanitize(name[1..])
  }

  /**
   * The sanitised name has the original's length; each allowed character
   * stays where it was and every other character becomes '_'.
   */
  lemma {:induction false} SanitizeAt(name: string)
    ensures |Sanitize(name)| == |name|
    ensures forall i :: 0 <= i < |name| ==>
      Sanitize(name)[i] == if IsSafeChar(name[i]) then name[i] else '_'
  {
    if name != [] {
      SanitizeAt(name[1..]);
      assert forall i :: 1 <= i < |name| ==> Sanitize(name)[i] == Sanitize(name[1..])[i - 1];
    }
  }

  /** The sanitiser leaves a name alone exactly when it already uses only `[a-zA-Z0-9._-]`. */
  lemma {:induction false} SanitizeFixedPoints(name: string)
    ensures Sanitize(name) == name <==> forall i :: 0 <= i < |name| ==> IsStoredNameChar(name[i])
  {
    SanitizeAt(name);
    if forall i :: 0 <= i < |name| ==> IsStoredNameChar(name[i]) {
      assert forall i :: 0 <= i < |name| ==> Sanitize(name)[i] == name[i];
    }
  }

  /** Sanitising twice is sanitising once. */
  lemma {:induction false} SanitizeIdempotent(name: string)
    ensures Sanitize(Sanitize(name)) == Sanitize(name)
  {
    SanitizeFixedPoints(Sanitize(name));
  }

  // ---------------------------------------------------------------------
  // The timestamp in decimal: `${timestamp}`
  // ---------------------------------------------------------------------

  function DigitChar(d: nat): (c: char)
    requires d < 10
    ensures IsDigit(c)
  {
    ('0' as int + d) as char
  }

  function DigitValue(c: char): nat
    requires IsDigit(c)
  {
    c as int - '0' as int
  }

  predicate AllDigits(s: string)
  {
    forall i :: 0 <= i < |s| ==> IsDigit(s[i])
  }

  /** The decimal numeral of n: at least one digit, and no leading zero unless n is 0. */
  function DecimalDigits(n: nat): (r: string)
    ensures |r| >= 1 && AllDigits(r)
    ensures r[0] == '0' <==> n == 0
    ensures n == 0 ==> r == "0"
  {
    if n < 10 then [DigitChar(n)] else DecimalDigits(n / 10) + [DigitChar(n % 10)]
  }

  /** The value of a string of decimal digits, most significant first. */
  function ParseDecimal(s: string): nat
    requires AllDigits(s)
  {
    if s == [] then 0 else 10 * ParseDecimal(s[..|s| - 1]) + DigitValue(s[|s| - 1])
  }

  /** Reading back the numeral gives the number. */
  lemma {:induction false} ParseDecimalInverts(n: nat)
    ensures ParseDecimal(DecimalDigits(n)) == n
  {
    if n >= 10 {
      var high := DecimalDigits(n / 10);
      var numeral := high + [DigitChar(n % 10)];
      assert numeral[..|numeral| - 1] == high;
      ParseDecimalInverts(n / 10);
    }
  }

  // ---------------------------------------------------------------------
  // The stored file name and the public path
  // ---------------------------------------------------------------------

  /** `${timestamp}-${sanitizedFilename}` */
  function StoredFilename(timestamp: nat, name: string): (r: string)
    ensures |r| == |DecimalDigits(timestamp)| + 1 + |name|
    ensures forall i :: 0 <= i < |r| ==> IsStoredNameChar(r[i])
  {
    var digits := DecimalDigits(timestamp);
    var f := digits + "-" + Sanitize(name);
    assert forall i :: 0 <= i < |digits| ==> f[i] == digits[i];
    assert forall i :: |digits| < i < |f| ==> f[i] == Sanitize(name)[i - |digits| - 1];
    f
  }

  /** The position of the first '-', if any. */
  function DashIndex(s: string): (r: Option<nat>)
    ensures r.Some? ==> r.value < |s| && s[r.value] == '-'
    ensures r.Some? ==> forall j :: 0 <= j < r.value ==> s[j] != '-'
    ensures r.None? <==> forall j :: 0 <= j < |s| ==> s[j] != '-'
  {
    if s == [] then None
    else if s[0] == '-' then Some(0)
    else match DashIndex(s[1..])
      case None => None
      case Some(k) => Some(k + 1)
  }

  /** Splits a stored file name back into its timestamp and its sanitised name. */
  function ParseFilename(f: string): Option<(nat, string)>
  {
    match DashIndex(f)
    case None => None
    case Some(k) =>
      if k > 0 && AllDigits(f[..k]) then Some((ParseDecimal(f[..k]), f[k + 1..])) else None
  }

  /** The stored file name determines the timestamp and the sanitised name it was built from. */
  lemma FilenameRoundTrip(timestamp: nat, name: string)
    ensures ParseFilename(StoredFilename(timestamp, name)) == Some((timestamp, Sanitize(name)))
  {
    var digits := DecimalDigits(timestamp);
    var f := StoredFilename(timestamp, name);
    var k := |digits|;
    assert f[k] == '-';
    assert forall j :: 0 <= j < k ==> f[j] == digits[j];
    assert DashIndex(f) == Some(k);
    assert f[..k] == digits;
    assert f[k + 1..] == Sanitize(name);
    ParseDecimalInverts(timestamp);
  }

  /** `/logos/${filename}` */
  function PublicPath(filename: string): (r: string)
    ensures StartsWith(r, LOGOS_PREFIX)
    ensures r[|LOGOS_PREFIX|..] == filename
  {
    LOGOS_PREFIX + filename
  }

  /**
   * The path of an upload starts with `/logos/`, and what follows is the
   * file name: digits, '-', then the sanitised name, with no further path
   * separator. It follows from the contracts of StoredFilename and
   * PublicPath.
   */
  lemma PublicPathShape(timestamp: nat, name: string)
    ensures var p := PublicPath(StoredFilename(timestamp, name));
      && StartsWith(p, LOGOS_PREFIX)
      && |p| == |LOGOS_PREFIX| + |DecimalDigits(timestamp)| + 1 + |name|
      && (forall i :: |LOGOS_PREFIX| <= i < |p| ==> IsStoredNameChar(p[i]))
      && (forall i :: |LOGOS_PREFIX| <= i < |p| ==> p[i] != '/' && p[i] != '\\')
  {
  }

  // ---------------------------------------------------------------------
  // The handler
  // ---------------------------------------------------------------------

  /**
   * The checks the handler makes before writing, in order: the field is
   * present, it is not an empty text entry, it is a file (reading the MIME
   * type of a text entry throws and is reported as a server error), and its
   * MIME type starts with `image/`. None means the upload is accepted.
   */
  function Validate(field: Option<FormValue>): (r: Option<(nat, string)>)
    ensures r.None? <==> field.Some? && field.value.FileValue? && StartsWith(field.value.mimeType, IMAGE_PREFIX)
    ensures field.None? ==> r == Some((BAD_REQUEST, NO_FILE))
    ensures field.Some? && field.value.FileValue? && !StartsWith(field.value.mimeType, IMAGE_PREFIX) ==>
      r == Some((BAD_REQUEST, IMAGES_ONLY))
    ensures field == Some(TextValue("")) ==> r == Some((BAD_REQUEST, INVALID_FILE))
    ensures field.Some? && field.value.TextValue? && field.value.text != "" ==>
      r == Some((SERVER_ERROR, UPLOAD_FAILED))
    ensures r.Some? ==> r.value.0 == BAD_REQUEST || r.value.0 == SERVER_ERROR
  {
    match field
    case None => Some((BAD_REQUEST, NO_FILE))
    case Some(TextValue(text)) =>
      if text == "" then Some((BAD_REQUEST, INVALID_FILE)) else Some((SERVER_ERROR, UPLOAD_FAILED))
    case Some(FileValue(_, mimeType, _)) =>
      if StartsWith(mimeType, IMAGE_PREFIX) then None else Some((BAD_REQUEST, IMAGES_ONLY))
  }

  /** The public logos folder: file name to contents. */
  class LogoFolder {
    var files: map<string, seq<byte>>

    constructor (existing: map<string, seq<byte>>)
      ensures files == existing
    {
      files := existing;
    }

    /**
     * POST: validate, then write exactly one file, then reply with its path.
     * A rejected request writes nothing.
     */
    method Post(field: Option<FormValue>, timestamp: nat) returns (status: nat, reply: UploadReply)
      modifies this
      ensures Validate(field).Some? ==>
        && status == Validate(field).value.0
        && reply == UploadError(Validate(field).value.1)
        && files == old(files)
      ensures Validate(field).None? ==>
        var filename := StoredFilename(timestamp, field.value.name);
        && status == OK
        && files == old(files)[filename := field.value.bytes]
        && reply == Uploaded(PublicPath(filename))
    {
      if field.None? {
        return BAD_REQUEST, UploadError(NO_FILE);
      }
      var file := field.value;
      if file == TextValue("") {
        return BAD_REQUEST, UploadError(INVALID_FILE);
      }
      if file.TextValue? {
        return SERVER_ERROR, UploadError(UPLOAD_FAILED);
      }
      if !StartsWith(file.mimeType, IMAGE_PREFIX) {
        return BAD_REQUEST, UploadError(IMAGES_ONLY);
      }
      var filename := StoredFilename(timestamp, file.name);
      files := files[filename := file.bytes];
      return OK, Uploaded(PublicPath(filename));
    }
  }
}

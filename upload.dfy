/**
 * The upload route: a whitelist of file types, and the storage key under which the file is
 * handed to the external storage service. The service call is a parameter (`uploader`)
 * that succeeds with a stored file or fails; `now` is the millisecond clock reading.
 */
module Upload {
  import opened Wrappers
  import opened Http
  import opened Text
  import opened Schemas
  import opened Middleware

  const ALLOWED_TYPES: seq<string> := ["image/jpeg", "image/png", "application/pdf"]
  const FOLDER := "family-expense"
  /** The storage service is asked to detect the file's kind itself. */
  const RESOURCE_TYPE := "auto"

  datatype UploadBody = UploadBody(file: Json, fileName: Json, fileType: Json)

  /** What is sent to the storage service. */
  datatype UploadCall = UploadCall(file: string, resourceType: string, folder: string, publicId: string)
  /** What the service answers. */
  datatype StoredFile = StoredFile(secureUrl: string, publicId: string)
  /** The route's answer, and the call it made, if any. */
  datatype UploadOutcome = UploadOutcome(response: Response<StoredFile>, attempted: Option<UploadCall>)

  /** The whitelist refinement on `fileType`. */
  predicate AllowedType(t: string)
  {
    t in ALLOWED_TYPES
  }

  lemma AllowedTypeIff(t: string)
    ensures AllowedType(t) <==> t == "image/jpeg" || t == "image/png" || t == "application/pdf"
  {
  }

  /** `${userId}/${now}-${fileName}`. */
  function StorageKey(userId: string, now: nat, fileName: string): (key: string)
    ensures StartsWith(key, userId + "/")
  {
    assert (userId + "/" + Decimal(now) + "-" + fileName)[..|userId| + 1] == userId + "/";
    userId + "/" + Decimal(now) + "-" + fileName
  }

  /**
   * The key can be read back: the user id ends at the first '/', the timestamp at the next
   * '-', and the rest is the file name.
   */
  lemma StorageKeyParts(userId: string, now: nat, fileName: string)
    requires '/' !in userId
    ensures IndexOf(StorageKey(userId, now, fileName), '/') == |userId|
    ensures StorageKey(userId, now, fileName)[..|userId|] == userId
    ensures var rest := StorageKey(userId, now, fileName)[|userId| + 1..];
      var dash := IndexOf(rest, '-');
      && dash < |rest| && AllDigits(rest[..dash]) && DecimalValue(rest[..dash]) == now
      && rest[dash + 1..] == fileName
  {
    var digits := Decimal(now);
    var key := StorageKey(userId, now, fileName);
    var rest := digits + "-" + fileName;
    assert key == userId + ['/'] + rest;
    IndexOfAfterPiece(userId, '/', rest);
    assert key[..|userId|] == userId;
    assert key[|userId| + 1..] == rest;
    assert '-' !in digits by {
      forall k | 0 <= k < |digits| ensures digits[k] != '-' {
        assert IsDigit(digits[k]);
      }
    }
    assert rest == digits + ['-'] + fileName;
    IndexOfAfterPiece(digits, '-', fileName);
    assert rest[..|digits|] == digits;
    assert rest[|digits| + 1..] == fileName;
    DecimalRoundTrip(now);
  }

  /** Different uploads (user, time or name) never share a key. */
  lemma StorageKeyInjective(u1: string, n1: nat, f1: string, u2: string, n2: nat, f2: string)
    requires '/' !in u1 && '/' !in u2
    requires StorageKey(u1, n1, f1) == StorageKey(u2, n2, f2)
    ensures u1 == u2 && n1 == n2 && f1 == f2
  {
    StorageKeyParts(u1, n1, f1);
    StorageKeyParts(u2, n2, f2);
  }

  /** The upload route after authentication was attempted. */
  function UploadRoute(auth: Response<Payload>, body: UploadBody, now: nat,
                       uploader: UploadCall -> Option<StoredFile>): (r: UploadOutcome)
    ensures auth.Err? ==> r == UploadOutcome(Err(auth.status, auth.body), None)
    ensures auth.Ok? && !(body.file.Str? && body.fileName.Str? && body.fileType.Str? && AllowedType(body.fileType.s)) ==>
      r == UploadOutcome(Err(BAD_REQUEST, FieldErrors), None)
    ensures r.attempted.Some? ==>
      && auth.Ok? && body.file.Str? && body.fileName.Str? && body.fileType.Str? && AllowedType(body.fileType.s)
      && r.attempted.value == UploadCall(body.file.s, RESOURCE_TYPE, FOLDER, StorageKey(auth.value.id, now, body.fileName.s))
      && r.response == match uploader(r.attempted.value)
        case Some(stored) => Ok(stored)
        case None => Err(INTERNAL_ERROR, Message("Failed to upload file"))
    ensures r.attempted.Some? <==>
      auth.Ok? && body.file.Str? && body.fileName.Str? && body.fileType.Str? && AllowedType(body.fileType.s)
  {
    if auth.Err? then UploadOutcome(Err(auth.status, auth.body), None)
    else if !(RequiredText(body.file, AnyText()) && RequiredText(body.fileName, AnyText())
              && RequiredText(body.fileType, AllowedType)) then
      UploadOutcome(Err(BAD_REQUEST, FieldErrors), None)
    else
      var call := UploadCall(body.file.s, RESOURCE_TYPE, FOLDER, StorageKey(auth.value.id, now, body.fileName.s));
      match uploader(call)
      case Some(stored) => UploadOutcome(Ok(stored), Some(call))
      case None => UploadOutcome(Err(INTERNAL_ERROR, Message("Failed to upload file")), Some(call))
  }
}

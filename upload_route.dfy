/** The `POST` handler of app/api/upload/route.ts: validates the uploaded file,
    checks that the blob storage token is configured, derives a safe storage
    name and stores the file. The storage call is a parameter: its outcome is
    given, and the handler reports which name it would have been called with. */
module UploadRoute {
  import opened Common
  import opened Strings
  import opened ImageValidation

  /** What `request.formData()` yields: it may throw, and the form may lack a file. */
  datatype FormOutcome = FormFailed(message: Option<string>) | Form(file: Option<FileInfo>)

  /** What the blob store's `put` does: it returns the public URL or throws. The
      message of a thrown error is None when the thrown value is not an `Error`. */
  datatype PutOutcome = Stored(url: string) | PutFailed(message: Option<string>)

  datatype Body = UrlBody(url: string) | ErrorBody(error: string, details: Option<string>)

  datatype Response = Response(status: nat, body: Body)

  /** The characters a stored name keeps: `[a-zA-Z0-9.-]`. */
  predicate SafeChar(c: char) {
    ('a' <= c <= 'z') || ('A' <= c <= 'Z') || ('0' <= c <= '9') || c == '.' || c == '-'
  }

  /** `name.replace(/[^a-zA-Z0-9.-]/g, "_")`. */
  function Sanitize(name: string): (r: string)
    ensures |r| == |name|
    ensures forall i :: 0 <= i < |r| ==> SafeChar(r[i]) || r[i] == '_'
  {
    seq(|name|, i requires 0 <= i < |name| => if SafeChar(name[i]) then name[i] else '_')
  }

  /** Allowed characters stay and every other one becomes an underscore; so a
      name is left alone exactly when it is already safe, and sanitising twice
      is sanitising once. */
  lemma SanitizeCorrect(name: string)
    ensures forall i :: 0 <= i < |name| ==> (Sanitize(name)[i] == name[i] <==> SafeChar(name[i]) || name[i] == '_')
    ensures forall i :: 0 <= i < |name| && !SafeChar(name[i]) ==> Sanitize(name)[i] == '_'
    ensures Sanitize(name) == name <==> forall i :: 0 <= i < |name| ==> SafeChar(name[i]) || name[i] == '_'
    ensures Sanitize(Sanitize(name)) == Sanitize(name)
  {
    if Sanitize(name) != name {
      var i :| 0 <= i < |name| && Sanitize(name)[i] != name[i];
      assert !(SafeChar(name[i]) || name[i] == '_');
    }
  }

  /** The storage name, "recipe-<timestamp>-<sanitised name>". */
  function StoredName(now: nat, name: string): (r: string)
    ensures |r| == 7 + |NatToString(now)| + 1 + |name|
    ensures r[..7] == "recipe-"
  {
    "recipe-" + NatToString(now) + "-" + Sanitize(name)
  }

  /** Two uploads at timestamps of the same number of digits get the same name
      only at the same timestamp and with names that sanitise alike. */
  lemma StoredNameInjective(n1: nat, a: string, n2: nat, b: string)
    requires |NatToString(n1)| == |NatToString(n2)|
    requires StoredName(n1, a) == StoredName(n2, b)
    ensures n1 == n2 && Sanitize(a) == Sanitize(b)
  {
    var d := |NatToString(n1)|;
    var r1, r2 := StoredName(n1, a), StoredName(n2, b);
    assert r1[7..7 + d] == NatToString(n1);
    assert r2[7..7 + d] == NatToString(n2);
    NatToStringInjective(n1, n2);
    assert r1[8 + d..] == Sanitize(a);
    assert r2[8 + d..] == Sanitize(b);
  }

  const MissingToken: string := "Server configuration error: Missing blob storage token"

  /** `POST`: the response, and the name the file is stored under when the store
      is called at all. `token` is `BLOB_READ_WRITE_TOKEN`, `now` is `Date.now()`. */
  function Handle(form: FormOutcome, token: Option<string>, now: nat, put: PutOutcome): (Response, Option<string>) {
    match form
    case FormFailed(m) => (Response(500, ErrorBody("Failed to upload image", Some(m.GetOr("Unknown error")))), None)
    case Form(None) => (Response(400, ErrorBody("No file provided", None)), None)
    case Form(Some(f)) =>
      if !IsImageType(f.mimeType) then (Response(400, ErrorBody("File must be an image", None)), None)
      else if f.size > MaxImageBytes then (Response(400, ErrorBody("File size must be less than 5MB", None)), None)
      else if token.None? || token.value == "" then
        (Response(500, ErrorBody(MissingToken, None)), None)
      else
        var name := StoredName(now, f.name);
        match put
        case Stored(url) => (Response(200, UrlBody(url)), Some(name))
        case PutFailed(m) => (Response(500, ErrorBody("Failed to upload image", Some(m.GetOr("Unknown error")))), Some(name))
  }

  /** The checks come in order: a missing file, then the type, then the size,
      each a 400; the token is only checked, with a 500, once the file passed
      both checks of `validateImageFile`; and a form that cannot be read is a 500. */
  lemma HandleCorrect(form: FormOutcome, token: Option<string>, now: nat, put: PutOutcome)
    ensures form == Form(None) ==> Handle(form, token, now, put).0 == Response(400, ErrorBody("No file provided", None))
    ensures form.Form? && form.file.Some? && ValidateImageFile(form.file.value).Some? ==>
              Handle(form, token, now, put).0.status == 400 && Handle(form, token, now, put).1.None?
    ensures form.Form? && form.file.Some? && ValidateImageFile(form.file.value).None? && (token.None? || token.value == "") ==>
              Handle(form, token, now, put) == (Response(500, ErrorBody(MissingToken, None)), None)
    ensures form.FormFailed? ==> Handle(form, token, now, put).0.status == 500
  {
  }

  /** The missing-token response comes only from a readable form whose file
      passed both checks. */
  lemma MissingTokenAfterChecks(form: FormOutcome, token: Option<string>, now: nat, put: PutOutcome)
    ensures Handle(form, token, now, put).0.body == ErrorBody(MissingToken, None) ==>
              form.Form? && form.file.Some? && ValidateImageFile(form.file.value).None? && (token.None? || token.value == "")
  {
  }

  /** The store is called only after every check passed, under the derived name;
      the response is a 200 carrying the store's URL exactly when the store
      succeeded, and every failure of the store is a 500. */
  lemma HandleStores(form: FormOutcome, token: Option<string>, now: nat, put: PutOutcome)
    ensures Handle(form, token, now, put).1.Some? <==>
              form.Form? && form.file.Some? && ValidateImageFile(form.file.value).None? && token.Some? && token.value != ""
    ensures Handle(form, token, now, put).1.Some? ==>
              Handle(form, token, now, put).1.value == StoredName(now, form.file.value.name)
              && (Handle(form, token, now, put).0.status == 200 <==> put.Stored?)
              && (put.PutFailed? ==> Handle(form, token, now, put).0.status == 500)
    ensures Handle(form, token, now, put).0.status == 200 ==>
              put.Stored? && Handle(form, token, now, put).0.body == UrlBody(put.url)
  {
  }
}

/**
 The upload endpoint (`POST /api/upload`): a multipart parser configured with a
 media-type filter and a size cap, a POST handler that names the object, stores
 it and answers with its public URL, and the router's fallbacks for errors and
 for methods other than POST.

 Everything the endpoint cannot decide for itself is a parameter: the clock
 (`Date.now()`), the random token (`Math.random().toString(36).substring(2)`),
 the bucket and region read from the environment, and what the storage
 service answered to the put request. With those fixed, the response is a
 function of the request.
 */
module Upload {
  import opened Wrappers
  import opened Strings

  /* ---------- configuration of the multipart parser ---------- */

  /** `limits.fileSize`: 5 MiB. */
  const MaxFileSize: nat := 5 * 1024 * 1024

  /** The media types the file filter lets through. */
  const AllowedMimes: seq<string> := ["image/jpeg", "image/jpg", "image/png", "image/gif", "image/webp"]

  const FilterMessage := "Only image files (JPEG, PNG, GIF, WebP) are allowed!"

  /** The message of the parser's own error for a file over `limits.fileSize`. */
  const FileTooLargeMessage := "File too large"

  const NoFileMessage := "No file provided"
  const UploadFailedMessage := "Upload failed"
  const UnknownErrorCode := "UNKNOWN_ERROR"
  const KeyPrefix := "uploads/"

  /* ---------- data ---------- */

  /** A file part of the multipart body; its size is the length of its content. */
  datatype File = File(originalName: string, mimeType: string, buffer: seq<bv8>) {
    function Size(): nat { |buffer| }
  }

  /** What the multipart body holds under the field `file`. `Malformed` stands
      for any other error the parser raises while reading the body. */
  datatype Multipart = NoFile | WithFile(file: File) | Malformed(message: string)

  datatype Request = Request(verb: string, body: Multipart)

  /** `AWS_BUCKET_NAME` and `AWS_REGION`. */
  datatype Config = Config(bucket: string, region: string)

  /** The result of sending the put request: success, or the thrown error with
      its `message` and `code` properties (either may be missing). */
  datatype StorageOutcome = Stored | StorageFailed(message: Option<string>, code: Option<string>)

  /** The parameters of the `PutObjectCommand`. */
  datatype PutObject = PutObject(bucket: string, key: string, body: seq<bv8>, contentType: string)

  /** The JSON bodies the endpoint sends; `Text` is a plain-text body. */
  datatype Body =
    | UploadResult(url: string, fileName: string, fileSize: nat, mimeType: string)
    | Error(error: string)
    | StorageError(error: string, code: string)
    | Text(text: string)

  datatype Response = Response(status: nat, body: Body)

  /** One request's observable effects: the put request it issued, if any, and its response. */
  datatype Exchange = Exchange(put: Option<PutObject>, response: Response)

  /** The multipart parser's verdict: the file (if any) handed to the route, or its error. */
  datatype Parsed = Parsed(file: Option<File>) | ParseError(message: string)

  /* ---------- the multipart parser ---------- */

  predicate IsAllowedMime(mime: string) {
    mime in AllowedMimes
  }

  /** The file filter: None lets the file through, Some(m) rejects it with the error message m. */
  function FileFilter(f: File): (rejection: Option<string>)
    ensures rejection.None? <==> f.mimeType in {"image/jpeg", "image/jpg", "image/png", "image/gif", "image/webp"}
    ensures rejection.Some? ==> rejection.value == FilterMessage
  {
    if !IsAllowedMime(f.mimeType) then Some(FilterMessage) else None
  }

  /** `upload.single("file")`: the filter sees the file before its content is
      read, so a disallowed type is reported even for an oversize file. A file
      of exactly MaxFileSize bytes is taken to be accepted (the boundary is the
      parser library's). */
  function ParseMultipart(body: Multipart): (r: Parsed)
    ensures r.Parsed? && r.file.Some? ==>
              body == WithFile(r.file.value) && IsAllowedMime(r.file.value.mimeType) && r.file.value.Size() <= MaxFileSize
    ensures r.Parsed? && r.file.None? <==> body.NoFile?
  {
    match body
    case NoFile => Parsed(None)
    case Malformed(message) => ParseError(message)
    case WithFile(f) =>
      match FileFilter(f)
      case Some(message) => ParseError(message)
      case None => if f.Size() > MaxFileSize then ParseError(FileTooLargeMessage) else Parsed(Some(f))
  }

  /* ---------- naming the object ---------- */

  /** `originalname.split('.').pop()`: the text after the last '.', or the whole
      name when it has no '.'. */
  function Extension(name: string): (ext: string)
    ensures '.' !in ext
    ensures '.' !in name ==> ext == name
  {
    Last(Split(name, '.'))
  }

  /** The extension is exactly what follows the last '.' of the name. */
  lemma ExtensionIsTextAfterLastDot(name: string)
    ensures Extension(name) == match LastIndexOf(name, '.')
                               case None => name
                               case Some(j) => name[j + 1..]
  {
    LastOfSplit(name, '.');
  }

  /** Whatever precedes the last '.', the extension is the dot-free text after it. */
  lemma ExtensionOfDottedName(stem: string, ext: string)
    requires '.' !in ext
    ensures Extension(stem + "." + ext) == ext
  {
    var name := stem + "." + ext;
    assert name[|stem| + 1..] == ext;
    LastIndexOfUnique(name, '.', |stem|);
    ExtensionIsTextAfterLastDot(name);
  }

  /** A name ending in '.' has the empty extension. */
  lemma ExtensionOfTrailingDot(stem: string)
    ensures Extension(stem + ".") == ""
  {
    assert stem + "." == stem + "." + "";
    ExtensionOfDottedName(stem, "");
  }

  /** `uploads/${Date.now()}-${token}.${fileExtension}`. */
  function MakeKey(now: nat, token: string, ext: string): (key: string)
    ensures KeyPrefix <= key
    ensures |key| > |ext| && key[|key| - |ext| - 1..] == "." + ext
  {
    KeyPrefix + NatToDecimal(now) + "-" + token + "." + ext
  }

  datatype KeyParts = KeyParts(timestamp: nat, token: string, extension: string)

  /** Reads a key of the form uploads/<digits>-<token>.<extension>, the token
      running up to the last '.'. */
  function ParseKey(key: string): (r: Option<KeyParts>)
    ensures r.Some? ==> MakeKey(r.value.timestamp, r.value.token, r.value.extension) == key
    ensures r.Some? ==> '.' !in r.value.extension
  {
    if !(KeyPrefix <= key) then None
    else
      var rest := key[|KeyPrefix|..];
      match IndexOf(rest, '-')
      case None => None
      case Some(i) =>
        var digits := rest[..i];
        var tail := rest[i + 1..];
        if !IsDecimal(digits) then None
        else match LastIndexOf(tail, '.')
          case None => None
          case Some(j) =>
            assert rest == digits + "-" + tail;
            KeyFromParts(key, digits, tail, j);
            Some(KeyParts(DecimalValue(digits), tail[..j], tail[j + 1..]))
  }

  /** A key cut at its first '-' (after the prefix) and at the last '.' after
      that is the key built from the pieces. */
  lemma KeyFromParts(key: string, digits: string, tail: string, j: nat)
    requires KeyPrefix <= key && key[|KeyPrefix|..] == digits + "-" + tail
    requires IsDecimal(digits) && j < |tail| && tail[j] == '.'
    ensures MakeKey(DecimalValue(digits), tail[..j], tail[j + 1..]) == key
  {
    assert key == KeyPrefix + key[|KeyPrefix|..];
    assert tail == tail[..j] + "." + tail[j + 1..];
    NatToDecimalOfDecimalValue(digits);
  }

  /** Every key the handler builds reads back as its timestamp, token and
      extension, whatever the token holds. */
  lemma ParseMakeKey(now: nat, token: string, ext: string)
    requires '.' !in ext
    ensures ParseKey(MakeKey(now, token, ext)) == Some(KeyParts(now, token, ext))
  {
    var key := MakeKey(now, token, ext);
    var digits := NatToDecimal(now);
    var tail := token + "." + ext;
    var rest := key[|KeyPrefix|..];
    assert KeyPrefix <= key;
    assert rest == digits + "-" + tail;
    assert AllDigits(digits);
    assert '-' !in digits;
    IndexOfUnique(rest, '-', |digits|);
    assert rest[..|digits|] == digits;
    assert rest[|digits| + 1..] == tail;
    assert tail[..|token|] == token;
    assert tail[|token| + 1..] == ext;
    LastIndexOfUnique(tail, '.', |token|);
    DecimalValueOfNatToDecimal(now);
  }

  /** Two keys are equal only when their timestamps, tokens and extensions are. */
  lemma MakeKeyInjective(now1: nat, token1: string, ext1: string, now2: nat, token2: string, ext2: string)
    requires '.' !in ext1 && '.' !in ext2
    ensures MakeKey(now1, token1, ext1) == MakeKey(now2, token2, ext2) <==>
              now1 == now2 && token1 == token2 && ext1 == ext2
  {
    ParseMakeKey(now1, token1, ext1);
    ParseMakeKey(now2, token2, ext2);
  }

  /* ---------- the public URL ---------- */

  function UrlPrefix(cfg: Config): string {
    "https://" + cfg.bucket + ".s3." + cfg.region + ".amazonaws.com/"
  }

  /** The virtual-hosted-style URL of the object `key` in the configured bucket. */
  function MakeUrl(cfg: Config, key: string): (url: string)
    ensures "https://" <= url
    ensures |url| >= |key| && url[|url| - |key|..] == key
  {
    UrlPrefix(cfg) + key
  }

  /** The key a URL of the configured bucket addresses. */
  function UrlKey(cfg: Config, url: string): (key: Option<string>)
    ensures key.Some? ==> MakeUrl(cfg, key.value) == url
  {
    if UrlPrefix(cfg) <= url then Some(url[|UrlPrefix(cfg)|..]) else None
  }

  /** The URL gives back the key it was built from. */
  lemma UrlKeyOfMakeUrl(cfg: Config, key: string)
    ensures UrlKey(cfg, MakeUrl(cfg, key)) == Some(key)
  {
  }

  /* ---------- the route and the router's fallbacks ---------- */

  /** `err.message || "Upload failed"` and `err.code || "UNKNOWN_ERROR"`: a
      missing or empty string falls back to the default. */
  function OrDefault(value: Option<string>, default: string): string {
    if value.Some? && value.value != "" then value.value else default
  }

  /** The POST route, given the file the parser handed over. */
  function PostHandler(file: Option<File>, cfg: Config, now: nat, token: string, storage: StorageOutcome): (ex: Exchange)
    ensures ex.put.Some? <==> file.Some?
    ensures ex.put.Some? ==> ex.put.value.body == file.value.buffer && ex.put.value.contentType == file.value.mimeType
    ensures ex.response.status in {200, 400, 500}
  {
    match file
    case None => Exchange(None, Response(400, Error(NoFileMessage)))
    case Some(f) =>
      var key := MakeKey(now, token, Extension(f.originalName));
      var put := PutObject(cfg.bucket, key, f.buffer, f.mimeType);
      match storage
      case Stored =>
        Exchange(Some(put), Response(200, UploadResult(MakeUrl(cfg, key), key, f.Size(), f.mimeType)))
      case StorageFailed(message, code) =>
        Exchange(Some(put), Response(500, StorageError(OrDefault(message, UploadFailedMessage), OrDefault(code, UnknownErrorCode))))
  }

  /** The `onError` option: any error raised on the way, reported with a fixed prefix. */
  function OnError(message: string): (r: Response)
    ensures r.status == 500 && r.body.Error?
    ensures |r.body.error| > |message| && r.body.error[|r.body.error| - |message|..] == message
  {
    Response(500, Error("Something went wrong: " + message))
  }

  /** The `onNoMatch` option: a method no route answers. */
  function OnNoMatch(verb: string): (r: Response)
    ensures r.status == 405 && r.body.Error?
  {
    Response(405, Error("Method '" + verb + "' Not Allowed"))
  }

  /** The endpoint with the error and no-match handlers the router is configured with. */
  function Handle(req: Request, cfg: Config, now: nat, token: string, storage: StorageOutcome): (ex: Exchange)
    ensures ex.put.Some? ==> req.verb == "POST" && ex.response.status in {200, 500}
    ensures ex.response.status in {200, 400, 405, 500}
    ensures ex.response.status == 405 <==> req.verb != "POST"
  {
    if req.verb != "POST" then Exchange(None, OnNoMatch(req.verb))
    else match ParseMultipart(req.body)
      case ParseError(message) => Exchange(None, OnError(message))
      case Parsed(file) => PostHandler(file, cfg, now, token, storage)
  }

  /* ---------- properties of the endpoint ---------- */

  /** Any method but POST is answered 405 and nothing is stored. */
  lemma NonPostIsNotAllowed(req: Request, cfg: Config, now: nat, token: string, storage: StorageOutcome)
    requires req.verb != "POST"
    ensures Handle(req, cfg, now, token, storage) ==
              Exchange(None, Response(405, Error("Method '" + req.verb + "' Not Allowed")))
  {
  }

  /** A file of a type outside the allow-list is refused by the filter with a
      500, whatever its size, and never reaches the put request. */
  lemma DisallowedTypeIsRejected(f: File, cfg: Config, now: nat, token: string, storage: StorageOutcome)
    requires !IsAllowedMime(f.mimeType)
    ensures Handle(Request("POST", WithFile(f)), cfg, now, token, storage) ==
              Exchange(None, Response(500, Error("Something went wrong: " + FilterMessage)))
  {
  }

  /** An allowed file over 5 MiB is refused by the parser with a 500 and never reaches the put request. */
  lemma OversizeIsRejected(f: File, cfg: Config, now: nat, token: string, storage: StorageOutcome)
    requires IsAllowedMime(f.mimeType) && f.Size() > 5242880
    ensures Handle(Request("POST", WithFile(f)), cfg, now, token, storage) ==
              Exchange(None, Response(500, Error("Something went wrong: " + FileTooLargeMessage)))
  {
  }

  /** A parser error is reported as a 500 carrying its message, and nothing is stored. */
  lemma ParserErrorIsReported(message: string, cfg: Config, now: nat, token: string, storage: StorageOutcome)
    ensures Handle(Request("POST", Malformed(message)), cfg, now, token, storage) ==
              Exchange(None, Response(500, Error("Something went wrong: " + message)))
  {
  }

  /** A POST without a file is answered 400 and nothing is stored. */
  lemma MissingFileIsBadRequest(cfg: Config, now: nat, token: string, storage: StorageOutcome)
    ensures Handle(Request("POST", NoFile), cfg, now, token, storage) ==
              Exchange(None, Response(400, Error("No file provided")))
  {
  }

  /** A put request is issued exactly for a POST carrying an allowed file of
      at most 5 MiB, and it stores that file's bytes unchanged under the key
      built from the clock, the token and the file's extension, with the
      declared type as content type. */
  lemma PutIssuedExactlyForValidFiles(req: Request, cfg: Config, now: nat, token: string, storage: StorageOutcome)
    ensures Handle(req, cfg, now, token, storage).put.Some? <==>
              req.verb == "POST" && req.body.WithFile? &&
              IsAllowedMime(req.body.file.mimeType) && req.body.file.Size() <= MaxFileSize
    ensures Handle(req, cfg, now, token, storage).put.Some? ==>
              var f := req.body.file;
              Handle(req, cfg, now, token, storage).put.value ==
                PutObject(cfg.bucket, MakeKey(now, token, Extension(f.originalName)), f.buffer, f.mimeType)
  {
  }

  /** The response is 200 exactly when a put request was issued and the storage service accepted it. */
  lemma SuccessExactlyWhenStored(req: Request, cfg: Config, now: nat, token: string, storage: StorageOutcome)
    ensures var ex := Handle(req, cfg, now, token, storage);
            ex.response.status == 200 <==> ex.put.Some? && storage.Stored?
    ensures var ex := Handle(req, cfg, now, token, storage);
            ex.response.status == 200 <==> ex.response.body.UploadResult?
  {
  }

  /** A stored upload is answered 200 with the key as `fileName`, the URL of
      that key in the configured bucket and region, and the file's size and
      declared type; the key reads back as the clock, the token and the
      extension of the original name. */
  lemma StoredUploadResponse(f: File, cfg: Config, now: nat, token: string)
    requires IsAllowedMime(f.mimeType) && f.Size() <= MaxFileSize
    ensures var ex := Handle(Request("POST", WithFile(f)), cfg, now, token, Stored);
            var key := ex.response.body.fileName;
            && ex.response.status == 200
            && ex.put == Some(PutObject(cfg.bucket, key, f.buffer, f.mimeType))
            && ex.response.body == UploadResult("https://" + cfg.bucket + ".s3." + cfg.region + ".amazonaws.com/" + key,
                                                key, |f.buffer|, f.mimeType)
            && ParseKey(key) == Some(KeyParts(now, token, Extension(f.originalName)))
            && UrlKey(cfg, ex.response.body.url) == Some(key)
  {
    var key := MakeKey(now, token, Extension(f.originalName));
    var ex := Handle(Request("POST", WithFile(f)), cfg, now, token, Stored);
    assert ex == Exchange(Some(PutObject(cfg.bucket, key, f.buffer, f.mimeType)),
                          Response(200, UploadResult(MakeUrl(cfg, key), key, f.Size(), f.mimeType)));
    ParseMakeKey(now, token, Extension(f.originalName));
    UrlKeyOfMakeUrl(cfg, key);
  }

  /** A failed put is answered 500 with the error's message and code, each
      replaced by its default when missing or empty; no 200 body is produced. */
  lemma FailedPutResponse(f: File, cfg: Config, now: nat, token: string, message: Option<string>, code: Option<string>)
    requires IsAllowedMime(f.mimeType) && f.Size() <= MaxFileSize
    ensures var ex := Handle(Request("POST", WithFile(f)), cfg, now, token, StorageFailed(message, code));
            && ex.put.Some?
            && ex.response.status == 500
            && ex.response.body.StorageError?
            && (ex.response.body.error == if message.Some? && message.value != "" then message.value else "Upload failed")
            && (ex.response.body.code == if code.Some? && code.value != "" then code.value else "UNKNOWN_ERROR")
  {
  }

  /** Two stored uploads made at different times or with different tokens get
      different keys and different URLs, even for the same file. */
  lemma DistinctUploadsGetDistinctKeys(f1: File, f2: File, cfg: Config, now1: nat, token1: string, now2: nat, token2: string)
    requires IsAllowedMime(f1.mimeType) && f1.Size() <= MaxFileSize
    requires IsAllowedMime(f2.mimeType) && f2.Size() <= MaxFileSize
    requires now1 != now2 || token1 != token2
    ensures var r1 := Handle(Request("POST", WithFile(f1)), cfg, now1, token1, Stored).response.body;
            var r2 := Handle(Request("POST", WithFile(f2)), cfg, now2, token2, Stored).response.body;
            r1.fileName != r2.fileName && r1.url != r2.url
  {
    MakeKeyInjective(now1, token1, Extension(f1.originalName), now2, token2, Extension(f2.originalName));
    var k1 := MakeKey(now1, token1, Extension(f1.originalName));
    var k2 := MakeKey(now2, token2, Extension(f2.originalName));
    UrlKeyOfMakeUrl(cfg, k1);
    UrlKeyOfMakeUrl(cfg, k2);
  }

  /* ---------- worked scenarios ---------- */

  /** A 2 MB PNG named like `photo.png` is stored under a key ending in ".png"
      and reported with its size. */
  lemma PngScenario(f: File, stem: string, cfg: Config, now: nat, token: string)
    requires f.originalName == stem + ".png" && f.mimeType == "image/png" && |f.buffer| == 2097152
    ensures var ex := Handle(Request("POST", WithFile(f)), cfg, now, token, Stored);
            var name := ex.response.body.fileName;
            && ex.response.status == 200
            && |name| >= 4 && name[|name| - 4..] == ".png"
            && ex.response.body.fileSize == 2097152
  {
    assert f.originalName == stem + "." + "png";
    ExtensionOfDottedName(stem, "png");
    assert IsAllowedMime(f.mimeType) by {
      assert AllowedMimes[2] == f.mimeType;
    }
    var key := MakeKey(now, token, "png");
    assert key[|key| - 4..] == ".png";
  }

  /** A stored file whose name has no '.' gets the whole name as its extension. */
  lemma UndottedNameScenario(f: File, cfg: Config, now: nat, token: string)
    requires '.' !in f.originalName && IsAllowedMime(f.mimeType) && f.Size() <= MaxFileSize
    ensures Handle(Request("POST", WithFile(f)), cfg, now, token, Stored).response.body.fileName
              == "uploads/" + NatToDecimal(now) + "-" + token + "." + f.originalName
  {
  }

  /** A storage error with code AccessDenied is passed through with its message. */
  lemma AccessDeniedScenario(f: File, cfg: Config, now: nat, token: string)
    requires f.mimeType == "image/jpeg" && f.Size() <= MaxFileSize
    ensures Handle(Request("POST", WithFile(f)), cfg, now, token, StorageFailed(Some("Access Denied"), Some("AccessDenied"))).response
              == Response(500, StorageError("Access Denied", "AccessDenied"))
  {
  }
}

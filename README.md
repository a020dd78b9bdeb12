# Image upload endpoint — a Dafny model

This project models `POST /api/upload`, a Next.js API route that takes one image
from a multipart form, stores it in an S3 bucket and answers with the object's
public URL. The route is a straight pipeline:

1. the configured no-match handler is meant to answer any method other than
   POST with 405 (as exported, the routing library's default 404 answers
   instead: see Findings);
2. the multipart parser (multer, `upload.single("file")`) runs a file filter
   that lets through only `image/jpeg`, `image/jpg`, `image/png`, `image/gif`
   and `image/webp`, and caps the file at 5 MiB (5,242,880 bytes); the
   configured error handler is meant to answer its errors with 500
   `{error: "Something went wrong: " + message}` (whether the errors reach
   it is settled by the routing library, not by this code: see Findings);
3. the POST route answers 400 `{error: "No file provided"}` when there is no
   file, otherwise takes the extension with `originalname.split('.').pop()`,
   builds the key `uploads/{Date.now()}-{token}.{extension}`, sends a put
   request (bucket, key, the file's bytes, its declared type), and answers 200
   `{url, fileName, fileSize, mimeType}` with the virtual-hosted-style URL
   `https://{bucket}.s3.{region}.amazonaws.com/{key}`, or 500
   `{error: message || "Upload failed", code: code || "UNKNOWN_ERROR"}` when
   the put fails.

The code is pure (no loops, no mutable state), so the model is datatypes,
functions and lemmas. The clock, the random token, the bucket and region, and
the storage service's answer are parameters; `Upload.Handle` then maps a
request to an `Exchange`: the put request it issued (if any) and the response.

Files:

- `wrappers.dfy` — `Option`.
- `strings.dfy` — module `Strings`: `split` with a one-character separator and
  its inverse `join`, `pop()` as the last element, the first and last position of a character,
  and the decimal text of a non-negative integer below 2^53 (every
  `Date.now()` value) with its parser.
- `upload.dfy` — module `Upload`: the parser configuration, extension, key,
  URL, the route, the error and no-match handlers, `Handle`, and the
  properties of the endpoint.
- `exported.dfy` — module `Exported`: the handler as actually exported (see
  Findings). `Upload.Handle` is the handler as configured, and assumes that
  the parser's errors reach the configured error handler.

Where the code's behaviour is easy to misread, the model follows the code:

- A name without a '.' gives the whole name as the "extension" (the key is
  then `uploads/…-token.README`), not the empty string: `split` always
  returns at least one piece and `pop()` takes it.
- In the configured handler, a file refused by the type filter or the size
  cap is meant to be answered through the error handler, 500
  `{error: "Something went wrong: " + message}`; there is no distinct
  validation status. This assumes the parser's error reaches that handler.
- The storage error's message and code fall back to their defaults when they
  are missing *or empty*, since `||` treats `""` as false.
- The filter runs before the size cap (the parser calls the filter before it
  reads the content), so an oversize file of a disallowed type is reported
  with the filter's message. The model accepts a file of exactly 5,242,880
  bytes (see Left out).

## Model

| member | source | states |
|---|---|---|
| `Strings.NatToDecimal` | src/pages/api/upload.ts:51 | `${Date.now()}` is a canonical numeral: one or more digits, no leading zero, "0" only for zero |
| `Strings.DecimalValueOfNatToDecimal` | src/pages/api/upload.ts:51 | reading the numeral of a timestamp back gives the timestamp |
| `Strings.NatToDecimalOfDecimalValue` | src/pages/api/upload.ts:51 | every canonical numeral is the numeral of its value (the other direction of the round trip) |
| `Strings.NatToDecimalInjective` | src/pages/api/upload.ts:51 | two timestamps print alike iff they are equal |
| `Strings.Split` | src/pages/api/upload.ts:50 | `split('.')` returns at least one piece, no piece contains the separator, and exactly one piece (the whole string) iff the string has no separator |
| `Strings.JoinSplit` | src/pages/api/upload.ts:50 | joining the pieces of a split with the separator gives back the string |
| `Strings.LastOfSplit` | src/pages/api/upload.ts:50 | `pop()` of a split is the text after the last separator, or the whole string when there is none |
| `Upload.FileFilter` | src/pages/api/upload.ts:26-33 | a file passes the filter iff its type is exactly one of the five image types; otherwise it is refused with "Only image files (JPEG, PNG, GIF, WebP) are allowed!" |
| `Upload.ParseMultipart` | src/pages/api/upload.ts:21-34 | the parser hands a file to the route only if its type is allowed and its size is at most 5 MiB, and hands over no file exactly when the body has none |
| `Upload.Extension` | src/pages/api/upload.ts:50 | the extension never contains a '.', and is the whole name when the name has no '.' |
| `Upload.ExtensionIsTextAfterLastDot` | src/pages/api/upload.ts:50 | the extension is exactly the text after the last '.' of the name, or the whole name without one |
| `Upload.ExtensionOfDottedName` | src/pages/api/upload.ts:50 | for any stem and dot-free e, the extension of stem + "." + e is e |
| `Upload.ExtensionOfTrailingDot` | src/pages/api/upload.ts:50 | a name ending in '.' has the empty extension |
| `Upload.MakeKey` | src/pages/api/upload.ts:51 | the key starts with "uploads/" and ends with "." + extension |
| `Upload.ParseKey` | src/pages/api/upload.ts:51 | any string it reads as (timestamp, token, extension) is the key built from them, with a dot-free extension |
| `Upload.ParseMakeKey` | src/pages/api/upload.ts:51 | every key built from a dot-free extension reads back as its timestamp, token and extension, whatever the token holds |
| `Upload.MakeKeyInjective` | src/pages/api/upload.ts:51 | two keys are equal iff their timestamps, tokens and extensions are |
| `Upload.MakeUrl` | src/pages/api/upload.ts:66 | the URL starts with "https://" and ends with the key |
| `Upload.UrlKey` | src/pages/api/upload.ts:66 | a key read from a URL of the configured bucket and region rebuilds that URL |
| `Upload.UrlKeyOfMakeUrl` | src/pages/api/upload.ts:66 | the URL of a key gives back the key |
| `Upload.PostHandler` | src/pages/api/upload.ts:42-82 | the route issues a put request exactly when it has a file, with the file's bytes unchanged and its declared type, and answers 200, 400 or 500 |
| `Upload.OnError` | src/pages/api/upload.ts:86-89 | an error is answered 500 with a message ending in the error's own message |
| `Upload.OnNoMatch` | src/pages/api/upload.ts:90-92 | an unmatched method is answered 405 with an error body |
| `Upload.Handle` | src/pages/api/upload.ts:37-93 | a put request is only issued for POST, and then the answer is 200 or 500; every answer is 200, 400, 405 or 500, and 405 exactly for methods other than POST |
| `Upload.NonPostIsNotAllowed` | src/pages/api/upload.ts:90-92 | any method but POST gets 405 `{error: "Method '<verb>' Not Allowed"}` and no put request |
| `Upload.DisallowedTypeIsRejected` | src/pages/api/upload.ts:26-33 | a POSTed file of a type outside the allow-list, whatever its size, gets 500 "Something went wrong: " + the filter's message and no put request |
| `Upload.OversizeIsRejected` | src/pages/api/upload.ts:23-24 | an allowed file over 5,242,880 bytes gets 500 "Something went wrong: File too large" and no put request |
| `Upload.ParserErrorIsReported` | src/pages/api/upload.ts:86-89 | any other parser error gets 500 "Something went wrong: " + its message and no put request |
| `Upload.MissingFileIsBadRequest` | src/pages/api/upload.ts:43-47 | a POST without a file gets 400 `{error: "No file provided"}` and no put request |
| `Upload.PutIssuedExactlyForValidFiles` | src/pages/api/upload.ts:53-63 | a put request is issued iff the request is a POST with an allowed file of at most 5 MiB, and it names the configured bucket, the built key, the file's bytes and its declared type |
| `Upload.SuccessExactlyWhenStored` | src/pages/api/upload.ts:61-81 | the answer is 200 iff a put request was issued and succeeded, and only a 200 carries an upload result |
| `Upload.StoredUploadResponse` | src/pages/api/upload.ts:61-74 | a stored upload gets 200 with `fileName` = the key, `url` = "https://" + bucket + ".s3." + region + ".amazonaws.com/" + key, the file's size and type; the key reads back as (now, token, extension) and the URL as the key |
| `Upload.FailedPutResponse` | src/pages/api/upload.ts:75-80 | a failed put gets 500 with the error's message (or "Upload failed" if missing or empty) and code (or "UNKNOWN_ERROR" if missing or empty) |
| `Upload.DistinctUploadsGetDistinctKeys` | src/pages/api/upload.ts:51 | two stored uploads with different timestamps or tokens get different keys and URLs, even for the same file |
| `Upload.PngScenario` | src/pages/api/upload.ts:50-74 | a 2 MB `<stem>.png` declared `image/png` gets 200, a `fileName` ending in ".png" and `fileSize` 2097152 |
| `Upload.UndottedNameScenario` | src/pages/api/upload.ts:50-51 | a stored file whose name has no '.' gets the key "uploads/" + now + "-" + token + "." + the whole name |
| `Upload.AccessDeniedScenario` | src/pages/api/upload.ts:75-80 | a put failing with code AccessDenied gets 500 with that message and code |
| `Exported.DefaultNoMatch` | src/pages/api/upload.ts:101 | the exported handler's fallback for an unmatched method answers 404 in plain text (empty for HEAD) |
| `Exported.ExportedHandle` | src/pages/api/upload.ts:85-101 | the exported handler issues the same put requests as `Upload.Handle`, answers every POST the parser accepts exactly as `Upload.Handle` does, and answers only 200, 400, 404 or 500 |
| `Exported.ExportedUnmatchedIsNotFound` | src/pages/api/upload.ts:85-101 | as exported, a GET (any method but POST and HEAD) gets 404 "Route <verb> <path> not found", where the configured handler gives 405 |
| `Exported.ExportedParserErrorIsMissingFile` | src/pages/api/upload.ts:40-47 | as exported, a POSTed file of a type outside the allow-list or over 5 MiB gets 400 `{error: "No file provided"}` and no put request, where the configured handler gives 500 |
| `Exported.ExportedDiffersOnlyInFallbacks` | src/pages/api/upload.ts:37-101 | the exported and the configured handler answer differently exactly for a method other than POST and for a body the parser refuses |

## Findings

| source | as written | input that shows it | evidently intended | confidence | as-written member | corrected member |
|---|---|---|---|---|---|---|
| src/pages/api/upload.ts:85-101 | `router.handler({ onError, onNoMatch })` builds a handler that is thrown away; the default export is `router.handler()` with no options, so unmatched methods get the routing library's default 404 plain-text answer | `GET /api/upload` | 405 `{error: "Method 'GET' Not Allowed"}` | medium; not executed (rests on the routing library's 1.x `handler(options)` returning a new function per call and ignoring earlier calls' options) | `Exported.ExportedUnmatchedIsNotFound` | `Upload.NonPostIsNotAllowed` |
| src/pages/api/upload.ts:40 | the multipart parser, which reports a refused file with `next(err)`, is mounted with `router.use` without the routing library's adapter for Express-style middleware; the library's `next` takes no argument, so the error is dropped and the POST route runs without a file | `POST /api/upload` with a `text/plain` file, or a 6 MB JPEG | 500 `{error: "Something went wrong: " + the parser's message}`, with no put request | medium; not executed (rests on the routing library's 1.x `next` ignoring its argument; if the error reached the library's default error handler instead, the answer would be 500 "Internal Server Error", still not the configured message) | `Exported.ExportedParserErrorIsMissingFile` | `Upload.DisallowedTypeIsRejected` |
| src/pages/api/upload.ts:40 | as above, for a file over the size cap | `POST /api/upload` with a 6 MB `image/jpeg` file | 500 `{error: "Something went wrong: File too large"}`, with no put request | medium; not executed (same reason) | `Exported.ExportedParserErrorIsMissingFile` | `Upload.OversizeIsRejected` |

The rest of the model (`Upload.Handle` and every property about it) uses the
handlers as configured.

## Left out

- The S3 client and the `PutObjectCommand` network call (credentials, region, retries inside the SDK): only its outcome is modelled, as `Stored` or `StorageFailed(message, code)`.
- Which property of the SDK's error carries the service's error code: the route reads `err.code`, and the model leaves open whether the SDK fills it (its service errors usually name the code in `name` or `Code`); when it does not, the answer's code is "UNKNOWN_ERROR", so the input of `Upload.AccessDeniedScenario` may not arise in practice.
- `Strings.NatToDecimal`: JavaScript prints integers from 2^53 on imprecisely and from 10^21 on in exponent notation; the model prints every `nat` in full, which agrees for every `Date.now()` value (at most 8.64e15).
- The storage error's `message` and `code` when they are not strings (a number, an object): the model only knows present strings and absent values.
- Multipart parsing itself (boundaries, streaming, field limits, a file under another field name, several files): any such parser error is the single case `Malformed(message)`, answered through the error handler; the text "File too large" is the parser library's message for its size limit.
- Routing beyond the method check: path matching and the HEAD-to-GET rule. `Upload.Handle` assumes that an error raised by the parser middleware reaches the configured error handler; `Exported.ExportedHandle` assumes instead that the routing library drops it (see Findings). Which one holds is decided by the routing library, which is not part of this model.
- The routing library's default answer to an error thrown by a route (500 "Internal Server Error"): no path of the model throws past the route's `try`/`catch`, so it is not modelled.
- The exact size at which the parser refuses a file: the model accepts a file of exactly 5,242,880 bytes and refuses anything larger; the source only sets `limits.fileSize`, and the boundary is the parser library's.
- `Date.now()` and `Math.random().toString(36).substring(2)`: the timestamp is a `nat` parameter and the token an arbitrary string (the model does not restrict it to base-36 digits, and the key round trip holds for any token).
- Reading `AWS_BUCKET_NAME` and `AWS_REGION` from the environment: they are the `Config` parameter; a missing variable (which would print "undefined" into the URL) is not modelled.
- Logging (`console.log`, `console.error`), `async`/`await`, and concurrent requests: no observable effect on one response.
- `export const config` (turning off Next.js's body parser): it only hands the raw body to the multipart parser.
- `src/pages/index.tsx` (the browser form) and `types/next.d.ts` (a type declaration): UI and types, no endpoint logic; they are not part of this model.
- `Upload.OnError`, `Upload.OnNoMatch`: their own contracts only state the status and the message suffix; the exact bodies are stated by `Upload.ParserErrorIsReported`, `Upload.DisallowedTypeIsRejected`, `Upload.OversizeIsRejected` and `Upload.NonPostIsNotAllowed`.

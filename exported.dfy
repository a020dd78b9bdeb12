/**
 The request handler the module exports, as written. Two things set it apart
 from the handler the code configures:

 - The error and no-match handlers are passed to a
   `router.handler({ onError, onNoMatch })` call whose result is thrown away;
   the default export calls `router.handler()` a second time with no options,
   so the routing library's built-in fallback answers an unmatched method:
   404 with a plain-text body.
 - The multipart parser is mounted with `router.use` as it is, without the
   routing library's adapter for Express-style middleware. The library's
   `next` takes no argument, so the error the parser reports with `next(err)`
   is dropped and the POST route runs with no file attached: it answers 400
   "No file provided".
 */
module Exported {
  import opened Wrappers
  import opened Upload

  /** The routing library's default answer to a method no route matches:
      404, with a plain-text body naming the route (no body for HEAD). */
  function DefaultNoMatch(verb: string, path: string): (r: Response)
    ensures r.status == 404 && r.body.Text?
    ensures verb == "HEAD" <==> r.body.text == ""
  {
    Response(404, Text(if verb != "HEAD" then "Route " + verb + " " + path + " not found" else ""))
  }

  /** The exported handler; `path` is the request path the library reports.
      It issues the same put requests as the configured handler, and answers
      alike every POST whose body the parser accepts. */
  function ExportedHandle(req: Request, path: string, cfg: Config, now: nat, token: string, storage: StorageOutcome): (ex: Exchange)
    ensures ex.put == Handle(req, cfg, now, token, storage).put
    ensures req.verb == "POST" && ParseMultipart(req.body).Parsed? ==> ex == Handle(req, cfg, now, token, storage)
    ensures ex.response.status in {200, 400, 404, 500}
  {
    if req.verb != "POST" then Exchange(None, DefaultNoMatch(req.verb, path))
    else match ParseMultipart(req.body)
      case ParseError(_) => PostHandler(None, cfg, now, token, storage)
      case Parsed(file) => PostHandler(file, cfg, now, token, storage)
  }

  /** As exported, a method other than POST (a GET, say) is answered 404
      with no JSON error body, where the configured handler answers 405. */
  lemma ExportedUnmatchedIsNotFound(verb: string, path: string, cfg: Config, now: nat, token: string, storage: StorageOutcome)
    requires verb != "POST" && verb != "HEAD"
    ensures ExportedHandle(Request(verb, NoFile), path, cfg, now, token, storage).response
              == Response(404, Text("Route " + verb + " " + path + " not found"))
    ensures Handle(Request(verb, NoFile), cfg, now, token, storage).response
              == Response(405, Error("Method '" + verb + "' Not Allowed"))
  {
  }

  /** As exported, a file the parser refuses (a type outside the allow-list,
      or over 5 MiB) is answered as if no file had been sent, where the
      configured handler reports the parser's message with a 500. */
  lemma ExportedParserErrorIsMissingFile(f: File, path: string, cfg: Config, now: nat, token: string, storage: StorageOutcome)
    requires !IsAllowedMime(f.mimeType) || f.Size() > MaxFileSize
    ensures ExportedHandle(Request("POST", WithFile(f)), path, cfg, now, token, storage)
              == Exchange(None, Response(400, Error(NoFileMessage)))
    ensures Handle(Request("POST", WithFile(f)), cfg, now, token, storage).response.status == 500
  {
  }

  /** The two handlers answer differently exactly for a method other than
      POST and for a body the parser refuses. */
  lemma ExportedDiffersOnlyInFallbacks(req: Request, path: string, cfg: Config, now: nat, token: string, storage: StorageOutcome)
    ensures (ExportedHandle(req, path, cfg, now, token, storage).response != Handle(req, cfg, now, token, storage).response)
            <==> (req.verb != "POST" || ParseMultipart(req.body).ParseError?)
  {
  }
}

/** The HTTP handlers: `POST /api/shorten` and `GET /<code>`. JSON decoding of
    the request body and `url.ParseRequestURI` are library behaviour and are
    given to the handlers as functions (`decode`, `isRequestURI`); the random
    source of the generator is given as draws. */
module Handlers {

  import opened Results
  import opened ShortenedUrl
  import opened ShortCodeService
  import opened Repository
  import opened ResponseService
  import opened Http

  type byte = b: int | 0 <= b < 256

  /** The result of reading the request body. */
  datatype Body = Body(bytes: seq<byte>) | ReadFailed(message: string)

  /** The `url` member of a body decoded into `map[string]interface{}`. */
  datatype UrlField = Missing | NonString | Text(value: string)

  /** What `json.Unmarshal` makes of the body: its error text, or an object. */
  datatype Decoded = Malformed(message: string) | Object(url: UrlField)

  datatype Request = Request(host: string, path: string, body: Body)

  const EndOfInputMessage: string := "unexpected end of JSON input"
  const NonStringMessage: string := "`url` is a non-string or missing"
  const InvalidUrlMessage: string := "`url` is not a valid URL"
  const LocationHeader: string := "Location"

  /** What Go's decoder is known to do with an empty body. */
  predicate DecodesEmptyBodyAsGoDoes(decode: seq<byte> -> Decoded)
  {
    decode([]) == Malformed(EndOfInputMessage)
  }

  /** `getValueOfURLFromRequestBody`: read, decode, require a string `url`,
      require it to parse as a request URI, each failure with its own message. */
  function GetValueOfURLFromRequestBody(body: Body, decode: seq<byte> -> Decoded, isRequestURI: string -> bool): (r: Result<string>)
    ensures r.Ok? <==> body.Body? && decode(body.bytes).Object? && decode(body.bytes).url.Text?
                       && isRequestURI(decode(body.bytes).url.value)
    ensures r.Ok? ==> r.value == decode(body.bytes).url.value
  {
    match body
    case ReadFailed(message) => Err(message)
    case Body(bytes) =>
      match decode(bytes)
      case Malformed(message) => Err(message)
      case Object(url) =>
        if !url.Text? then Err(NonStringMessage)
        else if !isRequestURI(url.value) then Err(InvalidUrlMessage)
        else Ok(url.value)
  }

  /** The checks run in a fixed order and the first that fails gives the message. */
  lemma ValidationOrder(body: Body, decode: seq<byte> -> Decoded, isRequestURI: string -> bool)
    ensures body.ReadFailed? ==> GetValueOfURLFromRequestBody(body, decode, isRequestURI) == Err(body.message)
    ensures body.Body? && decode(body.bytes).Malformed? ==>
      GetValueOfURLFromRequestBody(body, decode, isRequestURI) == Err(decode(body.bytes).message)
    ensures body.Body? && decode(body.bytes).Object? && !decode(body.bytes).url.Text? ==>
      GetValueOfURLFromRequestBody(body, decode, isRequestURI) == Err(NonStringMessage)
    ensures body.Body? && decode(body.bytes).Object? && decode(body.bytes).url.Text?
            && !isRequestURI(decode(body.bytes).url.value) ==>
      GetValueOfURLFromRequestBody(body, decode, isRequestURI) == Err(InvalidUrlMessage)
  {
  }

  /** An empty body fails with the decoder's "unexpected end of JSON input". */
  lemma EmptyBodyRejected(decode: seq<byte> -> Decoded, isRequestURI: string -> bool)
    requires DecodesEmptyBodyAsGoDoes(decode)
    ensures GetValueOfURLFromRequestBody(Body([]), decode, isRequestURI) == Err(EndOfInputMessage)
  {
  }

  /** The `data` of a successful shorten response. */
  function ShortURLData(host: string, code: string): map<string, string>
  {
    map["shortURL" := "http://" + host + "/" + code]
  }

  /** One run of the shorten handler on a loaded manifest: the response, or the
      panic that ends the handler without one, and the manifest written to the
      database file, if any. */
  datatype Step = Step(response: Outcome<JSONResponse>, written: Option<Manifest>)

  /** The shorten handler as written, given the loaded manifest `m` (`isNil`
      when it is a nil map), the validated body `v`, the first generated code
      and whether saving succeeds. No uniqueness check is made on `code`: the
      retry loop of the source is never entered (see `PostShorten`). A write
      happens only for a new long URL, and stores that URL under `code` on top
      of the loaded entries; a 200 answer always carries the code the long URL
      is stored under afterwards; a panic writes nothing. */
  function PostShortenStep(m: Manifest, isNil: bool, host: string, v: Result<string>, code: string, saved: bool): (s: Step)
    ensures s.written.Some? <==>
      v.Ok? && !FoundByLong(m, v.value) && PlanCreate(m, isNil, New(v.value, code)).Insert? && saved
    ensures s.written.Some? ==>
      && s.written.value == m[v.value := code]
      && s.response == Returned(NewOkResponse(ShortURLData(host, code)))
    ensures s.response.Returned? && s.response.value.statusCode == StatusOK ==>
      var after := if s.written.Some? then s.written.value else m;
      && v.Ok? && v.value in after
      && s.response.value == NewOkResponse(ShortURLData(host, after[v.value]))
    ensures s.response.Panicked? ==> isNil && s.written.None?
  {
    match v
    case Err(message) => Step(Returned(NewErrResponse(message, Some(StatusBadRequest))), None)
    case Ok(url) =>
      if FoundByLong(m, url) then Step(Returned(NewOkResponse(ShortURLData(host, m[url]))), None)
      else CreateStep(m, isNil, host, url, code, saved)
  }

  /** The part of the handler after the long URL was found to be new. */
  function CreateStep(m: Manifest, isNil: bool, host: string, url: string, code: string, saved: bool): Step
  {
    match PlanCreate(m, isNil, New(url, code))
    case Reject(message) => Step(Returned(NewErrResponse(message, None)), None)
    case Abort => Step(Panicked(NilMapPanic), None)
    case Insert(m') =>
      if saved then Step(Returned(NewOkResponse(ShortURLData(host, code))), Some(m'))
      else Step(Returned(NewErrResponse(NotCreatedMessage, None)), None)
  }

  /** `resp` and the file system after the call are those of step `s`. */
  predicate Realizes(s: Step, resp: Outcome<JSONResponse>, before: map<string, StoredFile>, after: map<string, StoredFile>, path: string)
  {
    && resp == s.response
    && after == if s.written.Some? then before[path := Json(s.written.value)] else before
  }

  /** `PostShorten`. */
  method PostShorten(repo: FileSystem, disk: Disk, r: Request, decode: seq<byte> -> Decoded,
                     isRequestURI: string -> bool, draws: seq<int>) returns (resp: Outcome<JSONResponse>)
    requires ValidDraws(draws)
    modifies disk
    ensures var m := LoadManifest(old(disk.files), repo.DbPath());
      var isNil := LoadsNil(old(disk.files), repo.DbPath());
      var v := GetValueOfURLFromRequestBody(r.body, decode, isRequestURI);
      || Realizes(PostShortenStep(m, isNil, r.host, v, CodeOf(draws), true), resp, old(disk.files), disk.files, repo.DbPath())
      || Realizes(PostShortenStep(m, isNil, r.host, v, CodeOf(draws), false), resp, old(disk.files), disk.files, repo.DbPath())
  {
    var urlValue := GetValueOfURLFromRequestBody(r.body, decode, isRequestURI);
    if urlValue.Err? {
      return Returned(NewErrResponse(urlValue.message, Some(StatusBadRequest)));
    }
    var existing := repo.RetrieveByLongURL(disk, urlValue.value);
    if existing.Ok? {
      return Returned(NewOkResponse(ShortURLData(r.host, existing.value.GetShort())));
    }
    // The source follows this with a loop `for err == nil { ... }` meant to
    // retry until the code is unused. Its guard tests the error of the lookup
    // just made, which is non-nil here, so the loop never runs and the first
    // generated code is used unchecked.
    var shortCode := Generate(draws);
    var shortened := repo.Create(disk, New(urlValue.value, shortCode));
    if shortened.Panicked? {
      return Panicked(shortened.reason);
    }
    if shortened.value.Err? {
      return Returned(NewErrResponse(shortened.value.message, None));
    }
    return Returned(NewOkResponse(ShortURLData(r.host, shortened.value.value.GetShort())));
  }

  /** A body that fails validation gives status 400 with the validator's message
      and writes nothing. */
  lemma InvalidBodyIsBadRequest(m: Manifest, isNil: bool, host: string, message: string, code: string, saved: bool)
    ensures var s := PostShortenStep(m, isNil, host, Err(message), code, saved);
      && s.written.None?
      && s.response.Returned?
      && s.response.value.statusCode == StatusBadRequest
      && s.response.value.payload == Payload("err", Strings(map["message" := message]))
  {
  }

  /** A long URL already stored gives its existing code and writes nothing. */
  lemma StoredUrlReturnsExistingCode(m: Manifest, isNil: bool, host: string, url: string, code: string, saved: bool)
    requires FoundByLong(m, url)
    ensures PostShortenStep(m, isNil, host, Ok(url), code, saved) == Step(Returned(NewOkResponse(ShortURLData(host, m[url]))), None)
  {
  }

  /** A new, non-empty long URL is stored under the first generated code, a
      4-character code from the alphabet, and that code is returned; when the
      save fails the error response carries Create's message with status 500;
      when the database file holds `null` the handler panics and writes nothing. */
  lemma NewUrlGetsGeneratedCode(m: Manifest, isNil: bool, host: string, url: string, draws: seq<int>, saved: bool)
    requires ValidDraws(draws)
    requires url != "" && !FoundByLong(m, url)
    ensures var code := CodeOf(draws);
      && IsShortCode(code)
      && PostShortenStep(m, isNil, host, Ok(url), code, saved) ==
           if isNil then Step(Panicked(NilMapPanic), None)
           else if saved then Step(Returned(NewOkResponse(ShortURLData(host, code))), Some(m[url := code]))
           else Step(Returned(NewErrResponse(NotCreatedMessage, None)), None)
  {
    CodeOfIsShortCode(draws);
    assert CodeOf(draws) != "" by { assert |CodeOf(draws)| == ShortCodeLength; }
  }

  /** Shortening is idempotent: once a shorten request has succeeded, the same
      long URL is answered with the same response, whatever code would be
      generated and whether or not a save would succeed, and nothing is written. */
  lemma ShortenIdempotent(files0: map<string, StoredFile>, files1: map<string, StoredFile>, path: string,
                          host: string, url: string, code1: string, saved1: bool, code2: string, saved2: bool,
                          resp1: Outcome<JSONResponse>)
    requires Realizes(PostShortenStep(LoadManifest(files0, path), LoadsNil(files0, path), host, Ok(url), code1, saved1),
                      resp1, files0, files1, path)
    requires resp1.Returned? && resp1.value.statusCode == StatusOK
    ensures PostShortenStep(LoadManifest(files1, path), LoadsNil(files1, path), host, Ok(url), code2, saved2) == Step(resp1, None)
  {
    var m0 := LoadManifest(files0, path);
    if !FoundByLong(m0, url) {
      var plan := PlanCreate(m0, LoadsNil(files0, path), New(url, code1));
      assert plan.Insert? && saved1;
      SaveThenLoad(files0, path, plan.manifest);
      assert LoadManifest(files1, path) == m0[url := code1];
    }
  }

  /** The first index of `c` in `s`. */
  function IndexOf(s: string, c: char): (r: Option<nat>)
    ensures r.None? <==> c !in s
    ensures r.Some? ==> r.value < |s| && s[r.value] == c && c !in s[..r.value]
  {
    if s == [] then None
    else if s[0] == c then Some(0)
    else match IndexOf(s[1..], c)
      case None => None
      case Some(i) =>
        assert s[..i + 1] == [s[0]] + s[1..][..i];
        Some(i + 1)
  }

  /** `strings.SplitN(s, sep, 2)`: the whole string when `sep` does not occur,
      otherwise the text before its first occurrence and everything after it. */
  function SplitN2(s: string, sep: char): (parts: seq<string>)
    ensures |parts| == 1 || |parts| == 2
    ensures |parts| == 1 <==> sep !in s
    ensures |parts| == 1 ==> parts[0] == s
    ensures |parts| == 2 ==> s == parts[0] + [sep] + parts[1] && sep !in parts[0]
  {
    match IndexOf(s, sep)
    case None => [s]
    case Some(i) =>
      assert s == s[..i] + [sep] + s[i + 1..];
      [s[..i], s[i + 1..]]
  }

  /** The responses the redirect handler allows for `path`: 301 with a single
      `Location` header naming a long URL stored under the code after the first
      "/", or 404 with a blank payload and no headers when there is no "/", the
      code is empty or no entry holds it. */
  predicate RedirectAllows(m: Manifest, path: string, resp: JSONResponse)
  {
    var parts := SplitN2(path, '/');
    if |parts| == 2 && parts[1] != "" && parts[1] in m.Values then
      && LocationHeader in resp.headers
      && resp == NewEmptyResponseWithHeader(StatusMovedPermanently, LocationHeader, resp.headers[LocationHeader])
      && resp.headers[LocationHeader] in m
      && m[resp.headers[LocationHeader]] == parts[1]
    else
      resp == NewEmptyResponse(StatusNotFound)
  }

  /** `GetShortURLRedirect`. */
  method GetShortURLRedirect(repo: FileSystem, disk: Disk, r: Request) returns (resp: JSONResponse)
    ensures RedirectAllows(LoadManifest(disk.files, repo.DbPath()), r.path, resp)
  {
    var pathParts := SplitN2(r.path, '/');
    if |pathParts| < 2 {
      return NewEmptyResponse(StatusNotFound);
    }
    var shortCode := pathParts[1];
    var shortenedURL := repo.RetrieveByShortCode(disk, shortCode);
    if shortenedURL.Ok? {
      return NewEmptyResponseWithHeader(StatusMovedPermanently, LocationHeader, shortenedURL.value.GetLong());
    }
    return NewEmptyResponse(StatusNotFound);
  }

  /** For a request path "/" + code: a code that the manifest holds under
      exactly one long URL redirects to that URL; a code no entry holds,
      including the empty code of the root path "/", gives 404. */
  lemma RedirectOfCode(m: Manifest, code: string, resp: JSONResponse)
    requires RedirectAllows(m, "/" + code, resp)
    ensures code == "" || code !in m.Values ==> resp == NewEmptyResponse(StatusNotFound)
    ensures forall l :: l in m && m[l] == code && code != "" && (forall l' :: l' in m && m[l'] == code ==> l' == l) ==>
      resp == NewEmptyResponseWithHeader(StatusMovedPermanently, LocationHeader, l)
  {
    var parts := SplitN2("/" + code, '/');
    assert ("/" + code)[0] == '/';
    assert |parts| == 2;
    assert parts[0] == [];
    assert parts[1] == code by {
      assert "/" + code == parts[0] + ['/'] + parts[1];
    }
  }
}

/** The collision check the shorten handler evidently intends ("loop until we
    have a unique short code"), next to a counterexample for the handler as
    written. */
module UniqueShortCodes {

  import opened Results
  import opened ShortenedUrl
  import opened ShortCodeService
  import opened Repository
  import opened ResponseService
  import opened Http
  import opened Handlers

  /** Every group of draws would make a code. */
  predicate AllValid(draws: seq<seq<int>>)
  {
    forall i :: 0 <= i < |draws| ==> ValidDraws(draws[i])
  }

  /** Some group from `from` on makes a code no entry holds: the random source
      eventually produces an unused code. */
  predicate SomeUnusedFrom(m: Manifest, draws: seq<seq<int>>, from: nat)
  {
    exists i :: from <= i < |draws| && ValidDraws(draws[i]) && CodeOf(draws[i]) !in m.Values
  }

  /** The index of the first group, from `from` on, whose code is unused. */
  function FirstUnusedFrom(m: Manifest, draws: seq<seq<int>>, from: nat): (k: nat)
    requires AllValid(draws) && SomeUnusedFrom(m, draws, from)
    ensures from <= k < |draws| && CodeOf(draws[k]) !in m.Values
    ensures forall j :: from <= j < k ==> CodeOf(draws[j]) in m.Values
    decreases |draws| - from
  {
    if CodeOf(draws[from]) !in m.Values then from
    else
      assert SomeUnusedFrom(m, draws, from + 1) by {
        var i :| from <= i < |draws| && ValidDraws(draws[i]) && CodeOf(draws[i]) !in m.Values;
        assert i != from;
      }
      FirstUnusedFrom(m, draws, from + 1)
  }

  /** The code the retrying handler settles on. */
  function FirstUnusedCode(m: Manifest, draws: seq<seq<int>>): (c: string)
    requires AllValid(draws) && SomeUnusedFrom(m, draws, 0)
    ensures IsShortCode(c) && c !in m.Values
  {
    var k := FirstUnusedFrom(m, draws, 0);
    CodeOfIsShortCode(draws[k]);
    CodeOf(draws[k])
  }

  /** The evidently intended loop: generate a code, and keep generating while
      the repository finds an entry holding it. */
  method DrawUnusedCode(repo: FileSystem, disk: Disk, draws: seq<seq<int>>) returns (shortCode: string)
    requires |draws| > 0 && AllValid(draws)
    requires SomeUnusedFrom(LoadManifest(disk.files, repo.DbPath()), draws, 0)
    ensures shortCode == FirstUnusedCode(LoadManifest(disk.files, repo.DbPath()), draws)
  {
    ghost var m := LoadManifest(disk.files, repo.DbPath());
    ghost var k := FirstUnusedFrom(m, draws, 0);
    var i := 0;
    shortCode := Generate(draws[0]);
    var taken := repo.RetrieveByShortCode(disk, shortCode);
    while taken.Ok?
      invariant 0 <= i <= k
      invariant shortCode == CodeOf(draws[i])
      invariant taken.Ok? <==> shortCode in m.Values
      invariant forall j :: 0 <= j < i ==> CodeOf(draws[j]) in m.Values
      decreases k - i
    {
      i := i + 1;
      shortCode := Generate(draws[i]);
      taken := repo.RetrieveByShortCode(disk, shortCode);
    }
  }

  /** The shorten handler with the retry loop it was meant to have: for a new
      long URL, draw codes until the repository no longer finds one. */
  method PostShortenRetrying(repo: FileSystem, disk: Disk, r: Request, decode: seq<byte> -> Decoded,
                             isRequestURI: string -> bool, draws: seq<seq<int>>) returns (resp: Outcome<JSONResponse>)
    requires |draws| > 0 && AllValid(draws)
    requires SomeUnusedFrom(LoadManifest(disk.files, repo.DbPath()), draws, 0)
    modifies disk
    ensures var m := LoadManifest(old(disk.files), repo.DbPath());
      var isNil := LoadsNil(old(disk.files), repo.DbPath());
      var v := GetValueOfURLFromRequestBody(r.body, decode, isRequestURI);
      || Realizes(PostShortenStep(m, isNil, r.host, v, FirstUnusedCode(m, draws), true), resp, old(disk.files), disk.files, repo.DbPath())
      || Realizes(PostShortenStep(m, isNil, r.host, v, FirstUnusedCode(m, draws), false), resp, old(disk.files), disk.files, repo.DbPath())
  {
    var urlValue := GetValueOfURLFromRequestBody(r.body, decode, isRequestURI);
    if urlValue.Err? {
      return Returned(NewErrResponse(urlValue.message, Some(StatusBadRequest)));
    }
    var existing := repo.RetrieveByLongURL(disk, urlValue.value);
    if existing.Ok? {
      return Returned(NewOkResponse(ShortURLData(r.host, existing.value.GetShort())));
    }
    var shortCode := DrawUnusedCode(repo, disk, draws);
    var shortened := repo.Create(disk, New(urlValue.value, shortCode));
    if shortened.Panicked? {
      return Panicked(shortened.reason);
    }
    if shortened.value.Err? {
      return Returned(NewErrResponse(shortened.value.message, None));
    }
    return Returned(NewOkResponse(ShortURLData(r.host, shortened.value.value.GetShort())));
  }

  /** With the retry loop, a newly stored code belongs to the shortened URL
      alone, so every lookup of it finds that URL and a redirect of it goes
      there. */
  lemma RetryingCodeIsUnique(m: Manifest, isNil: bool, host: string, url: string, draws: seq<seq<int>>, saved: bool,
                             found: Result<ShortenedURL>, resp: JSONResponse)
    requires AllValid(draws) && SomeUnusedFrom(m, draws, 0)
    requires PostShortenStep(m, isNil, host, Ok(url), FirstUnusedCode(m, draws), saved).written.Some?
    ensures var code := FirstUnusedCode(m, draws);
      var m' := PostShortenStep(m, isNil, host, Ok(url), code, saved).written.value;
      && m' == m[url := code]
      && (forall l :: l in m' && m'[l] == code ==> l == url)
      && (RetrieveAllows(m', New("", code), found) ==> found == Ok(New(url, code)))
      && (RedirectAllows(m', "/" + code, resp) ==> resp == NewEmptyResponseWithHeader(StatusMovedPermanently, LocationHeader, url))
  {
    var code := FirstUnusedCode(m, draws);
    var m' := m[url := code];
    assert forall l :: l in m' && l != url ==> m'[l] == m[l] && m[l] in m.Values;
    assert m'[url] == code;
    if RedirectAllows(m', "/" + code, resp) {
      RedirectOfCode(m', code, resp);
    }
  }

  /** As written, the handler stores a code another URL already holds: with the
      manifest {"http://bbc.co.uk": "ABC1"} and draws spelling "ABC1", shortening
      "http://wikipedia.org" answers http://<host>/ABC1, yet a redirect for ABC1
      may lead to http://bbc.co.uk. */
  lemma CollisionAsWritten(resp: JSONResponse)
    ensures var m := map["http://bbc.co.uk" := "ABC1"];
      var s := PostShortenStep(m, false, "localhost:8080", Ok("http://wikipedia.org"), CodeOf([0, 1, 2, 27]), true);
      && CodeOf([0, 1, 2, 27]) == "ABC1"
      && s.response == Returned(NewOkResponse(ShortURLData("localhost:8080", "ABC1")))
      && s.written == Some(m["http://wikipedia.org" := "ABC1"])
      && RedirectAllows(s.written.value, "/ABC1",
           NewEmptyResponseWithHeader(StatusMovedPermanently, LocationHeader, "http://bbc.co.uk"))
  {
    var draws := [0, 1, 2, 27];
    assert draws[..3] == [0, 1, 2] && [0, 1, 2][..2] == [0, 1] && [0, 1][..1] == [0] && [0][..0] == [];
    assert CodeOf(draws) == "ABC1";
    var m' := map["http://bbc.co.uk" := "ABC1", "http://wikipedia.org" := "ABC1"];
    assert "ABC1" in m'.Values by { assert m'["http://bbc.co.uk"] == "ABC1"; }
    var parts := SplitN2("/ABC1", '/');
    assert "/ABC1"[0] == '/';
    assert parts[0] == [];
    assert parts[1] == "ABC1" by {
      assert "/ABC1" == parts[0] + ['/'] + parts[1];
    }
  }
}

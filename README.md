# URL shortener: model of the shortening table and the request decisions

This project models the core of a small Go service that maps long URLs to
4-character short codes and redirects visitors from a code back to the long URL.
It has these parts:

- **Entity** (`ShortenedUrl`): an immutable pair of a long URL and a short code.
- **Short-code generator** (`ShortCodeService`): a 4-symbol code over `A-Z0-9`.
  The random source is replaced by a sequence of draws.
- **File-backed repository** (`Repository`): the manifest, a map from long URL
  to short code, stored as one JSON file `<basePath>/db.txt`. The file system is
  a `Disk` object whose `files` field the repository reads and rewrites. A file
  that is missing or cannot be read or parsed loads as the empty manifest, and
  so does a file holding the JSON literal `null`, which decodes as a nil map
  that `Create` then panics on.
  Whether a save succeeds is a nondeterministic choice. `Create` refuses empty
  fields and already-mapped long URLs and otherwise rewrites the whole manifest.
  `Retrieve` looks up the long URL first and then scans for the short code, in
  an unspecified order.
- **Response envelope** (`ResponseService`): `{status, data}` payloads, headers,
  status codes, and what writing a response emits.
- **HTTP handlers** (`Handlers`): body validation, `PostShorten` and
  `GetShortURLRedirect`. JSON decoding and `url.ParseRequestURI` are supplied
  as functions.
- **CLI client** (`Cli`): argument parsing, the `shorten` and `redirect`
  commands, and everything the program prints. The request each command sends
  is part of its result; the replies of the HTTP calls and the browser launch
  are inputs.

The repository interface declares `RetrieveByLongURL` and `RetrieveByShortCode`.
The file-system implementation that is shown has only `Retrieve(u)`. The model
defines the two interface methods as `Retrieve(New(l, ""))` and
`Retrieve(New("", s))`.

In two places the source's own comments promise more than its code does. The
model follows the code:

- The comment at internal/handlers/handlers.go:40 says the handler loops until
  the short code is unique. The loop guard is false on entry, so the loop never
  runs and the first code is stored unchecked (see Findings).
- The comment at internal/handlers/handlers.go:66 says the one-part branch
  handles the root path "/". But `SplitN("/", "/", 2)` gives two parts, the
  second one empty. So "/" reaches the lookup, and the lookup of the empty code
  is what yields 404.

## Model

| member | source | states |
|---|---|---|
| `ShortenedUrl.New` | internal/entities/shortenedurl/shortenedurl.go:10-25 | the getters of `New(l, s)` give back `l` and `s`; no validation, empty strings accepted |
| `ShortenedUrl.EqualIffFieldsEqual` | internal/entities/shortenedurl/shortenedurl.go:4-7 | two entities are equal exactly when both fields are equal |
| `ShortenedUrl.NewOfGetters` | internal/entities/shortenedurl/shortenedurl.go:10-25 | rebuilding an entity from its getters gives the same entity |
| `ShortCodeService.CodeOfAt` | internal/services/shortcodeservice/shortcodeservice.go:22-27 | the code has one character per draw; position i is the alphabet symbol at index draws[i] (appended in order) |
| `ShortCodeService.CodeOfIsShortCode` | internal/services/shortcodeservice/shortcodeservice.go:8-9 | four in-range draws give a 4-character code whose every character is in "A-Z0-9" |
| `ShortCodeService.Generate` | internal/services/shortcodeservice/shortcodeservice.go:12-30 | the counted loop returns the code the draws spell; its length is 4 and every character is from the alphabet |
| `Repository.LoadManifest` | internal/repositories/shortenedurlfilesystemrepository/shortenedurlfilesystemrepository.go:85-100 | a stored JSON object loads as itself; a missing, unreadable or unparsable file, or one holding `null`, loads as the empty manifest |
| `Repository.SaveManifest` | internal/repositories/shortenedurlfilesystemrepository/shortenedurlfilesystemrepository.go:102-114 | on success the file at the path holds exactly the given manifest; on failure the file system is unchanged |
| `Repository.SaveThenLoad` | internal/repositories/shortenedurlfilesystemrepository/shortenedurlfilesystemrepository.go:85-114 | loading after a successful save gives back the saved manifest |
| `Repository.SaveLeavesOtherPaths` | internal/repositories/shortenedurlfilesystemrepository/shortenedurlfilesystemrepository.go:108 | saving under one path string does not change what any other path string loads |
| `Repository.PlanCreateAccepts` | internal/repositories/shortenedurlfilesystemrepository/shortenedurlfilesystemrepository.go:25-36 | Create inserts exactly when both fields are non-empty, the long URL is not mapped to a non-empty code and the manifest is not a nil map; otherwise "Shortened URL is empty" or "Shortened URL already exists", in that order of checks, and a nil map that passed both checks panics at the insertion (:38) |
| `Repository.PlanCreateFrame` | internal/repositories/shortenedurlfilesystemrepository/shortenedurlfilesystemrepository.go:38 | an insertion adds the long URL mapped to the short code and keeps every other entry |
| `Repository.FileSystem.Create` | internal/repositories/shortenedurlfilesystemrepository/shortenedurlfilesystemrepository.go:24-45 | a rejected entity gives its error and leaves the file system unchanged; an accepted one returns the input and stores old[long := short] in db.txt, or fails with "Shortened URL could not be created" and changes nothing; on a `null` file that passed both checks it panics with "assignment to entry in nil map" and changes nothing |
| `Repository.FileSystem.Retrieve` | internal/repositories/shortenedurlfilesystemrepository/shortenedurlfilesystemrepository.go:48-67 | a long URL mapped to a non-empty code wins, and the short field is ignored; otherwise some entry holding the non-empty short code is returned; otherwise "Shortened URL does not exist" |
| `Repository.FileSystem.RetrieveByLongURL` | internal/repositories/shortenedurlfilesystemrepository/shortenedurlfilesystemrepository.go:52-54 | as Retrieve(New(l, "")): the stored pair (l, m[l]) when l is mapped to a non-empty code, otherwise "Shortened URL does not exist" |
| `Repository.FileSystem.RetrieveByShortCode` | internal/repositories/shortenedurlfilesystemrepository/shortenedurlfilesystemrepository.go:56-66 | as Retrieve(New("", s)): succeeds exactly when s is non-empty and some entry holds it, and then returns such an entry; the empty code never matches |
| `Repository.FileSystem.Update` | internal/repositories/shortenedurlfilesystemrepository/shortenedurlfilesystemrepository.go:70-73 | the stub returns its input with no error and touches no file |
| `Repository.FileSystem.Delete` | internal/repositories/shortenedurlfilesystemrepository/shortenedurlfilesystemrepository.go:76-79 | the stub returns its input with no error and touches no file |
| `Repository.FileSystem.DbPath` | internal/repositories/shortenedurlfilesystemrepository/shortenedurlfilesystemrepository.go:81-83 | the database path is the base path followed by "/db.txt" |
| `Repository.NewFileSystem` | internal/repositories/shortenedurlfilesystemrepository/shortenedurlfilesystemrepository.go:17-21 | the repository keeps the given base path |
| `Repository.DbPathShape` | internal/repositories/shortenedurlfilesystemrepository/shortenedurlfilesystemrepository.go:81-83 | two repositories have the same database path string exactly when their base path strings are equal |
| `Repository.CreatedIsRetrievable` | internal/repositories/shortenedurlfilesystemrepository/shortenedurlfilesystemrepository.go:38-63 | after an insertion, lookup by the long URL returns exactly the created entity, and lookup by its code returns some entry holding that code, which need not be the created one |
| `ResponseService.NewPayload` | internal/services/responseservice/responseservice.go:10-15 | the payload holds the given status and data |
| `ResponseService.NewEmptyResponse` | internal/services/responseservice/responseservice_test.go:9-23 | the given status code, a blank payload and no headers |
| `ResponseService.NewEmptyResponseWithHeader` | internal/services/responseservice/responseservice_test.go:25-43 | the given status code, a blank payload and exactly one header, key mapped to value |
| `ResponseService.NewOkResponse` | internal/services/responseservice/responseservice_test.go:45-63 | status 200, payload status "ok" with the given data, no headers |
| `ResponseService.NewErrResponse` | internal/services/responseservice/responseservice_test.go:65-83 | payload status "err" with data {"message": msg}, no headers, and the supplied code or 500 when none is supplied (the default of main.go:34-38) |
| `ResponseService.Write` | internal/services/responseservice/responseservice_test.go:85-136 | the status code and every header of the response are emitted, plus Content-Type: application/json and no other header; a blank payload gives an empty body, which the redirect tests expect for 404 and 301 (api/main_functional_shorturlredirect_test.go:61-64 and 84-87) |
| `ResponseService.WriteAddsOneHeader` | internal/services/responseservice/responseservice_test.go:131-136 | a response without Content-Type is written with exactly one header more |
| `Handlers.GetValueOfURLFromRequestBody` | internal/handlers/handlers.go:85-115 | a URL is returned exactly when the body reads, decodes to an object, has a string `url` and that string parses as a request URI; the URL returned is that string |
| `Handlers.ValidationOrder` | internal/handlers/handlers.go:86-112 | the failures come in a fixed order: read error, decoder error, "`url` is a non-string or missing", "`url` is not a valid URL" |
| `Handlers.EmptyBodyRejected` | main_test.go:55-75 | an empty body fails with "unexpected end of JSON input" when the decoder does so |
| `Handlers.PostShortenStep` | internal/handlers/handlers.go:22-55 | a write happens exactly for a valid, new long URL accepted by Create whose save succeeds, and it stores old[url := code] and answers "ok" with that code; a 200 answer always carries the code the URL is stored under afterwards; a panic (a `null` database file) writes nothing |
| `Handlers.PostShorten` | internal/handlers/handlers.go:17-56 | the response, or the panic, and the new file system are those of one of the two save outcomes of the step function, with the first generated code |
| `Handlers.InvalidBodyIsBadRequest` | internal/handlers/handlers.go:23-26 | a validation failure gives status 400, payload "err" with the validator's message, and writes nothing |
| `Handlers.StoredUrlReturnsExistingCode` | internal/handlers/handlers.go:29-35 | a stored long URL gives "ok" with shortURL "http://" + host + "/" + its existing code, and no Create happens |
| `Handlers.NewUrlGetsGeneratedCode` | internal/handlers/handlers.go:38-55 | a new long URL is stored under the first generated 4-character code and gets "ok" with that code; a failed save gives Create's message with status 500; a `null` database file makes the handler panic and write nothing |
| `Handlers.ShortenIdempotent` | internal/handlers/handlers.go:29-55 | after a successful shorten, shortening the same URL again gives the same response, whatever code or save outcome, and writes nothing |
| `Handlers.SplitN2` | internal/handlers/handlers.go:64 | one part (the whole path) exactly when there is no "/", otherwise the text before the first "/" and everything after it |
| `Handlers.GetShortURLRedirect` | internal/handlers/handlers.go:59-83 | 301 with one Location header naming a long URL stored under the code after the first "/"; otherwise 404 with blank payload and no headers |
| `Handlers.RedirectOfCode` | internal/handlers/handlers.go:64-82 | for path "/" + code, an empty or unknown code gives 404, and a code held by a single long URL redirects to that URL |
| `UniqueShortCodes.FirstUnusedFrom` | internal/handlers/handlers.go:40-44 | the index of the first group of draws, from a start on, whose code no entry holds; every earlier one is taken |
| `UniqueShortCodes.FirstUnusedCode` | internal/handlers/handlers.go:40-44 | the chosen code is a well-formed short code that no entry holds |
| `UniqueShortCodes.DrawUnusedCode` | internal/handlers/handlers.go:40-44 | the intended retry loop returns the first generated code that the repository does not find |
| `UniqueShortCodes.PostShortenRetrying` | internal/handlers/handlers.go:17-56 | the handler with that loop behaves as the step function with the first unused code |
| `UniqueShortCodes.RetryingCodeIsUnique` | internal/handlers/handlers.go:40-47 | with the retry loop, a newly stored code belongs to the shortened URL alone, so every lookup and redirect of it leads to that URL |
| `UniqueShortCodes.CollisionAsWritten` | internal/handlers/handlers.go:38-47 | as written, shortening a new URL can store a code another URL holds, and a redirect of that code may lead to the other URL |
| `Cli.NewHandler` | cli/main.go:47-63 | one argument gives an empty command and parameter; otherwise the command is args[1] and the parameter is args[2], or "" when there is none |
| `Cli.ExtraArgumentsIgnored` | cli/main.go:52-62 | arguments after the parameter do not change the parsed command line |
| `Cli.FormatNat` | cli/main.go:134 | `%d` gives a non-empty string of decimal digits with no leading zero |
| `Cli.FormatNatRoundTrip` | cli/main.go:134 | reading the printed digits back gives the number |
| `Cli.ShortenRequestBody` | cli/main.go:71 | the body is `{"url": "` + param + `"}` with no escaping, so the parameter is recovered from it |
| `Cli.CommandShorten` | cli/main.go:65-106 | a request is sent exactly when the parameter is non-empty, and it is the POST of the unescaped body to /api/shorten; a failure prints nothing; a transport or read error, a non-JSON body ("Status <n>, <decoder error>") and a non-"ok" status each give their own error |
| `Cli.ShortenNeedsParam` | cli/main.go:65-68 | an empty parameter fails with "Please supply a URL to shorten" whatever the server would answer |
| `Cli.ShortenSucceeds` | cli/main.go:77-105 | the command succeeds exactly when the reply is a JSON envelope with status "ok", and then prints the short URL on its own line |
| `Cli.RedirectTarget` | cli/main.go:127-141 | 404 gives "Shortcode <p> does not refer to a short URL"; other non-301 codes give "Unexpected status <n>"; 301 without Location gives "Unknown redirect location"; otherwise the first Location value is the target |
| `Cli.CommandRedirect` | cli/main.go:108-151 | a request is sent exactly when the parameter is non-empty, and it is the GET of apiBaseURL/<param>; success exactly when the reply names a target and the browser opens it; "Launching <url>..." is printed once a target is known, and then a browser failure gives "Failed to launch <url> :("; every other failure prints nothing and gives its own error |
| `Cli.RedirectNeedsParam` | cli/main.go:108-111 | an empty parameter fails with "Please supply a short code to redirect to" whatever the server would answer |
| `Cli.Output` | cli/main.go:33-36 | a command's own output, followed by "Error: <message>" on a line of its own when it failed |
| `Cli.Run` | cli/main.go:22-45 | "shorten" and "redirect" run their command on the second argument ("" if none) and print its output; no command, or any other, runs nothing and prints the usage text |
| `Cli.ShortenWithoutParamPrintsError` | cli/main.go:32-37 | `shorten` without a URL prints "Error: Please supply a URL to shorten" and nothing else |

## Left out

- File reading and writing and JSON encoding and decoding of the manifest are foreign calls. The file system is the `Disk` map, and a stored file is a parsed JSON object of strings, the literal `null`, or anything else (which loads as the empty manifest).
- The decode error that `loadManifest` prints to standard output for an unparsable file (shortenedurlfilesystemrepository.go:95) is output only and is not modelled.
- The `Disk` keys files by their exact path string. Different spellings of one file, such as a trailing "/", "./" or a symbolic link, are separate files in the model. So `SaveLeavesOtherPaths` and `DbPathShape` speak about path strings, not about the files the operating system would open.
- A Go panic is modelled as the `Panicked` outcome of `Create` and `PostShorten`. That net/http recovers it and closes the connection without a response is not modelled.
- A failed save is assumed to leave the old file in place. A write that truncates the file and then fails is not modelled.
- No JSON serialisation of the manifest is modelled, so the save-then-load round trip holds by construction. Marshalling a `map[string]string` cannot fail and is not modelled as a failure.
- Request-body JSON decoding and `url.ParseRequestURI` are library behaviour. They are the `decode` and `isRequestURI` parameters. Only the decoder's message for an empty body is pinned.
- The random source `rand.NewSource(time.Now().UnixNano())` is replaced by the draws parameter. The requirement that each draw lies in [0, 36) is the guarantee of `Intn(36)`.
- The server bootstrap and response writing of main.go (`ListenAndServe`, `Fprintf`) are I/O. Only its default error status of 500 is used, in `NewErrResponse`.
- The `apiHandler` router is not part of this model, including its 405 responses for other methods. Its source is not among the files modelled.
- The `JSONResponse` type and the constructors other than `NewPayload` are not in the version of responseservice.go that is modelled. They follow what its test file states. The JSON text of a written body is not modelled, and header-name canonicalisation is not modelled either.
- Concurrent requests racing on the manifest file are left out. No locking exists and the model is sequential.
- internal/entities/url/url.go duplicates the ShortenedURL entity and is referenced nowhere.
- The repository interface has no behaviour of its own. The handlers take the file-system repository directly.
- Go errors return the zero entity beside the error. `Result` drops that zero entity.
- Go strings are byte strings and Dafny strings are character sequences. Every constant involved is ASCII.
- The CLI's network calls (`http.Post`, `httpClient.Get`) and `browser.OpenURL` are I/O. The request a command sends is recorded in its result, and the outcomes are inputs. The shorten reply also arrives decoded, as its status, message and short URL.
- Cli.CommandShorten: the panics of the failed type assertions at cli/main.go:96-103 are not modelled. A reply that lacks the `status`, `data.message` or `data.shortURL` strings would panic in Go.

## Findings

| source | as written | input that shows it | evidently intended | confidence | as-written member | corrected member |
|---|---|---|---|---|---|---|
| internal/handlers/handlers.go:40-44 | the retry loop `for err == nil` tests the error of the long-URL lookup, which is non-nil at that point, so it never runs and the first generated code is stored unchecked | manifest {"http://bbc.co.uk": "ABC1"}, POST "http://wikipedia.org" with draws spelling "ABC1": the answer is http://<host>/ABC1, yet GET /ABC1 may redirect to http://bbc.co.uk | keep generating codes while `RetrieveByShortCode` finds one, so that a stored code belongs to one long URL | not executed; high (the comment at :40 says "loop until we have a unique short code") | `UniqueShortCodes.CollisionAsWritten` | `UniqueShortCodes.PostShortenRetrying` |

`Handlers.PostShorten` models the code as written. `UniqueShortCodes.PostShortenRetrying`
uses `UniqueShortCodes.DrawUnusedCode`, and `UniqueShortCodes.RetryingCodeIsUnique`
proves the intended property for it. Its draws are a finite sequence, so the
model requires that some group of draws spells an unused code. That is the
condition under which the intended unbounded loop ends.

/** The command-line client: argument parsing, the two commands and what the
    program prints. The HTTP calls and the browser are I/O: the request a
    command sends is part of its result, and what comes back is an input
    (`ShortenReply`, `RedirectReply`, `browserOpened`). */
module Cli {

  import opened Results
  import opened Http

  const ApiBaseURL: string := "http://localhost:8080"
  const CliCmd: string := "go run cli/main.go"

  const MissingUrlMessage: string := "Please supply a URL to shorten"
  const MissingCodeMessage: string := "Please supply a short code to redirect to"
  const UnknownLocationMessage: string := "Unknown redirect location"

  /** The parsed command line. */
  datatype Handler = Handler(command: string, param: string)

  /** `newHandler(os.Args)`: `args[0]` is the program; the command is the first
      argument and the parameter the second, or "" when absent. */
  function NewHandler(args: seq<string>): (h: Handler)
    requires |args| >= 1
    ensures |args| == 1 ==> h == Handler("", "")
    ensures |args| >= 2 ==> h.command == args[1]
    ensures h.param == if |args| > 2 then args[2] else ""
  {
    if |args| == 1 then Handler("", "")
    else
      var param := if |args| > 2 then args[2] else "";
      Handler(args[1], param)
  }

  /** Arguments after the parameter are ignored. */
  lemma ExtraArgumentsIgnored(args: seq<string>, extra: seq<string>)
    requires |args| >= 3
    ensures NewHandler(args + extra) == NewHandler(args)
  {
    assert (args + extra)[1] == args[1] && (args + extra)[2] == args[2];
  }

  datatype Command = Shorten | Redirect

  /** The `commands` table of `main`. */
  const Commands: map<string, Command> := map["shorten" := Shorten, "redirect" := Redirect]

  const UsageText: string :=
    "Usage:\n"
    + CliCmd + " shorten <url>           Shorten a long URL\n"
    + CliCmd + " redirect <shortcode>    Redirect a shortcode to original URL\n"

  /** The HTTP request a command sends. */
  datatype HttpRequest = Post(url: string, contentType: string, body: string) | Get(url: string)

  /** What a command sent, what it printed, and the error it returned, if any. */
  datatype CommandResult = CommandResult(sent: Option<HttpRequest>, printed: string, error: Option<string>)

  /** The result of a command that stops with `message` after sending `sent`. */
  function Failed(sent: Option<HttpRequest>, message: string): CommandResult
  {
    CommandResult(sent, "", Some(message))
  }

  /** What `main` prints for a finished command: its own output, then its error
      on an `Error:` line. */
  function Output(result: CommandResult): (out: string)
    ensures result.error.None? ==> out == result.printed
    ensures result.error.Some? ==>
      var line := "Error: " + result.error.value + "\n";
      |out| == |result.printed| + |line| && out[..|result.printed|] == result.printed && out[|result.printed|..] == line
  {
    result.printed + (if result.error.Some? then "Error: " + result.error.value + "\n" else "")
  }

  /** `%d` of a non-negative integer. */
  function FormatNat(n: nat): (s: string)
    ensures |s| >= 1 && forall i :: 0 <= i < |s| ==> '0' <= s[i] <= '9'
    ensures |s| > 1 ==> s[0] != '0'
  {
    if n < 10 then [DigitChar(n)] else FormatNat(n / 10) + [DigitChar(n % 10)]
  }

  function DigitChar(d: nat): (c: char)
    requires d < 10
    ensures '0' <= c <= '9'
  {
    (d + '0' as int) as char
  }

  /** The value of a string of decimal digits. */
  function DecimalValue(s: string): nat
    requires forall i :: 0 <= i < |s| ==> '0' <= s[i] <= '9'
  {
    if s == [] then 0 else 10 * DecimalValue(s[..|s| - 1]) + (s[|s| - 1] as int - '0' as int)
  }

  /** Formatting loses nothing: reading the digits back gives the number. */
  lemma {:induction false} FormatNatRoundTrip(n: nat)
    ensures DecimalValue(FormatNat(n)) == n
  {
    if n >= 10 {
      FormatNatRoundTrip(n / 10);
      var s := FormatNat(n);
      assert s[..|s| - 1] == FormatNat(n / 10);
    }
  }

  /** `%d` of any integer. */
  function FormatInt(n: int): string
  {
    if n < 0 then "-" + FormatNat(-n) else FormatNat(n)
  }

  // ----- shorten -----

  /** The request body sent to the shorten endpoint, built with no escaping. */
  function ShortenRequestBody(param: string): (body: string)
    ensures |body| == |param| + 11
    ensures body[..9] == "{\"url\": \"" && body[9..|body| - 2] == param && body[|body| - 2..] == "\"}"
  {
    "{\"url\": \"" + param + "\"}"
  }

  const ShortenEndpoint: string := ApiBaseURL + "/api/shorten"

  /** The POST the shorten command sends. */
  function ShortenRequest(param: string): HttpRequest
  {
    Post(ShortenEndpoint, "application/json", ShortenRequestBody(param))
  }

  /** The JSON envelope the client reads from a shorten response: its `status`
      and the `message` or `shortURL` member of its `data`. */
  datatype ShortenEnvelope = ShortenEnvelope(status: string, message: string, shortURL: string)

  /** The outcome of the POST, of reading its body, and of decoding it. */
  datatype ShortenReply =
    | PostFailed(message: string)
    | ReadFailed(message: string)
    | NotJson(statusCode: int, message: string)
    | Envelope(statusCode: int, envelope: ShortenEnvelope)

  /** `commandShorten(param)`, given what the server answered. A request is
      sent exactly when the parameter is non-empty; a failure prints nothing,
      and each failure of the exchange reports its own error. */
  function CommandShorten(param: string, reply: ShortenReply): (r: CommandResult)
    ensures r.sent.None? <==> param == ""
    ensures r.sent.Some? ==> r.sent.value == ShortenRequest(param)
    ensures r.error.Some? ==> r.printed == ""
    ensures param != "" && (reply.PostFailed? || reply.ReadFailed?) ==> r.error == Some(reply.message)
    ensures param != "" && reply.NotJson? ==>
      r.error == Some("Status " + FormatInt(reply.statusCode) + ", " + reply.message)
    ensures param != "" && reply.Envelope? && reply.envelope.status != "ok" ==> r.error == Some(reply.envelope.message)
  {
    if param == "" then Failed(None, MissingUrlMessage)
    else
      var sent := Some(ShortenRequest(param));
      match reply
      case PostFailed(message) => Failed(sent, message)
      case ReadFailed(message) => Failed(sent, message)
      case NotJson(code, message) => Failed(sent, "Status " + FormatInt(code) + ", " + message)
      case Envelope(_, envelope) =>
        if envelope.status != "ok" then Failed(sent, envelope.message)
        else CommandResult(sent, envelope.shortURL + "\n", None)
  }

  /** An empty parameter fails before any request, so the reply does not matter. */
  lemma ShortenNeedsParam(reply: ShortenReply)
    ensures CommandShorten("", reply) == Failed(None, MissingUrlMessage)
  {
  }

  /** A parameter is shortened exactly when the server's payload status is "ok";
      then the short URL is printed on its own line. */
  lemma ShortenSucceeds(param: string, reply: ShortenReply)
    ensures CommandShorten(param, reply).error.None? <==> param != "" && reply.Envelope? && reply.envelope.status == "ok"
    ensures CommandShorten(param, reply).error.None? ==> CommandShorten(param, reply).printed == reply.envelope.shortURL + "\n"
  {
  }

  // ----- redirect -----

  /** The URL the redirect command requests. */
  function RedirectRequestURL(param: string): string
  {
    ApiBaseURL + "/" + param
  }

  /** The outcome of the GET that does not follow redirects: a transport error,
      or the status code and the values of the `Location` header. */
  datatype RedirectReply = GetFailed(message: string) | Responded(statusCode: int, location: seq<string>)

  /** Classification of the redirect response: the target URL or the error. */
  function RedirectTarget(param: string, statusCode: int, location: seq<string>): (r: Result<string>)
    ensures r.Ok? <==> statusCode == StatusMovedPermanently && |location| > 0
    ensures r.Ok? ==> r.value == location[0]
    ensures statusCode == StatusNotFound ==> r == Err("Shortcode " + param + " does not refer to a short URL")
    ensures statusCode != StatusNotFound && statusCode != StatusMovedPermanently ==>
      r == Err("Unexpected status " + FormatInt(statusCode))
    ensures statusCode == StatusMovedPermanently && |location| == 0 ==> r == Err(UnknownLocationMessage)
  {
    if statusCode == StatusNotFound then Err("Shortcode " + param + " does not refer to a short URL")
    else if statusCode != StatusMovedPermanently then Err("Unexpected status " + FormatInt(statusCode))
    else if |location| == 0 then Err(UnknownLocationMessage)
    else Ok(location[0])
  }

  /** The GET the redirect command sends. */
  function RedirectRequest(param: string): HttpRequest
  {
    Get(RedirectRequestURL(param))
  }

  /** `commandRedirect(param)`, given the reply and whether the browser opened.
      A request is sent exactly when the parameter is non-empty; the command
      succeeds exactly when the reply names a target and the browser opens it;
      the "Launching" line is printed once a target is known, whether or not the
      browser then fails, and nothing is printed otherwise. */
  function CommandRedirect(param: string, reply: RedirectReply, browserOpened: bool): (r: CommandResult)
    ensures r.sent.None? <==> param == ""
    ensures r.sent.Some? ==> r.sent.value == RedirectRequest(param)
    ensures r.error.None? <==>
      param != "" && reply.Responded? && RedirectTarget(param, reply.statusCode, reply.location).Ok? && browserOpened
    ensures param != "" && reply.GetFailed? ==> r.error == Some(reply.message) && r.printed == ""
    ensures param != "" && reply.Responded? ==>
      match RedirectTarget(param, reply.statusCode, reply.location)
      case Err(message) => r.error == Some(message) && r.printed == ""
      case Ok(url) =>
        && r.printed == "Launching " + url + "...\n"
        && (!browserOpened ==> r.error == Some("Failed to launch " + url + " :("))
  {
    if param == "" then Failed(None, MissingCodeMessage)
    else
      var sent := Some(RedirectRequest(param));
      match reply
      case GetFailed(message) => Failed(sent, message)
      case Responded(code, location) =>
        match RedirectTarget(param, code, location)
        case Err(message) => Failed(sent, message)
        case Ok(url) =>
          var printed := "Launching " + url + "...\n";
          if browserOpened then CommandResult(sent, printed, None)
          else CommandResult(sent, printed, Some("Failed to launch " + url + " :("))
  }

  /** An empty parameter fails before any request. */
  lemma RedirectNeedsParam(reply: RedirectReply, browserOpened: bool)
    ensures CommandRedirect("", reply, browserOpened) == Failed(None, MissingCodeMessage)
  {
  }

  // ----- main -----

  /** Everything `main` prints for the command line `args`: the output of the
      command named by the first argument, run on the second; and for no
      command or any other command, the usage text, whatever the network would
      answer. */
  function Run(args: seq<string>, shortenReply: ShortenReply, redirectReply: RedirectReply, browserOpened: bool): (out: string)
    requires |args| >= 1
    ensures |args| >= 2 && args[1] == "shorten" ==>
      out == Output(CommandShorten(if |args| > 2 then args[2] else "", shortenReply))
    ensures |args| >= 2 && args[1] == "redirect" ==>
      out == Output(CommandRedirect(if |args| > 2 then args[2] else "", redirectReply, browserOpened))
    ensures |args| == 1 || (args[1] != "shorten" && args[1] != "redirect") ==> out == UsageText
  {
    var handler := NewHandler(args);
    if handler.command in Commands then
      var result :=
        match Commands[handler.command]
        case Shorten => CommandShorten(handler.param, shortenReply)
        case Redirect => CommandRedirect(handler.param, redirectReply, browserOpened);
      Output(result)
    else
      UsageText
  }

  /** `shorten` without a URL prints exactly the missing-URL error. */
  lemma ShortenWithoutParamPrintsError(shortenReply: ShortenReply, redirectReply: RedirectReply, browserOpened: bool)
    ensures Run(["cli", "shorten"], shortenReply, redirectReply, browserOpened) == "Error: " + MissingUrlMessage + "\n"
  {
  }
}

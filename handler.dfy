/**
 * `RequestLoggingHandler`: a message handler that forwards each request to
 * the next handler, classifies the exchange, and, when the logger accepts
 * that level, writes one multi-line record describing it.
 */
module RequestLogging {
  import opened Wrappers
  import opened Text
  import opened Classifier
  import opened Content

  datatype LogEntry = LogEntry(level: Level, message: string)

  /** NLog's `ILogger`, reduced to its level switch and the messages it has received. */
  class Logger {
    const enabledLevels: set<Level>
    var entries: seq<LogEntry>

    constructor (enabledLevels: set<Level>)
      ensures this.enabledLevels == enabledLevels && entries == []
    {
      this.enabledLevels := enabledLevels;
      entries := [];
    }

    predicate IsEnabled(level: Level)
    {
      level in enabledLevels
    }

    method Log(level: Level, message: string)
      modifies this
      ensures entries == old(entries) + [LogEntry(level, message)]
    {
      entries := entries + [LogEntry(level, message)];
    }
  }

  /** A `StringBuilder` used only through `AppendLine`; `lines` is what has been appended. */
  class LineBuilder {
    var text: string
    ghost var lines: seq<string>

    ghost predicate Valid()
      reads this
    {
      text == Render(lines)
    }

    constructor ()
      ensures Valid() && lines == []
    {
      text := "";
      lines := [];
    }

    method AppendLine(line: string)
      requires Valid()
      modifies this
      ensures Valid() && lines == old(lines) + [line]
    {
      RenderAppend(lines, line);
      text := text + line + NewLine;
      lines := lines + [line];
    }

    /** `if (value != null) AppendLine(caption + value)`. */
    method AppendOptional(caption: string, value: Option<string>)
      requires Valid()
      modifies this
      ensures Valid() && lines == old(lines) + Line(caption, value)
    {
      if value.Some? {
        AppendLine(caption + value.value);
      }
    }
  }

  /**
   * An `HttpRequestMessage`, limited to what the handler reads. `verb` is
   * mutable: handlers further down the pipeline may rewrite the method.
   * `range` is the first range of the `Range` header, already rendered;
   * `userName` is the request context's principal name.
   */
  class Request {
    var verb: string
    const pathAndQuery: string
    const range: Option<string>
    const userName: Option<string>
    const from: Option<string>
    const content: Option<Body>

    constructor (verb: string, pathAndQuery: string, range: Option<string>,
                 userName: Option<string>, from: Option<string>, content: Option<Body>)
      ensures this.verb == verb && this.pathAndQuery == pathAndQuery && this.range == range
      ensures this.userName == userName && this.from == from && this.content == content
    {
      this.verb := verb;
      this.pathAndQuery := pathAndQuery;
      this.range := range;
      this.userName := userName;
      this.from := from;
      this.content := content;
    }

    /** What the next handler is given: the request's values at the time of forwarding. */
    function View(): RequestView
      reads this
    {
      RequestView(verb, pathAndQuery, range, userName, from,
                  if content.Some? then Some((content.value.mediaType, content.value.text)) else None)
    }
  }

  datatype RequestView = RequestView(
    verb: string, pathAndQuery: string, range: Option<string>, userName: Option<string>,
    from: Option<string>, content: Option<(Option<string>, string)>)

  /** An `HttpResponseMessage`: the status code and the optional content. */
  datatype Response = Response(status: int, content: Option<Body>)

  /**
   * What the next handler does with a request: the response it returns,
   * the method it leaves on the request, and whether it read the request
   * body's stream to the end.
   */
  datatype Forwarded = Forwarded(verb: string, consumedBody: bool, response: Response)

  /** `!string.IsNullOrEmpty(s)`. */
  predicate Present(s: Option<string>)
  {
    s.Some? && s.value != ""
  }

  /** The values one log record is made of; `statusText` is the status code's enum name. */
  datatype RecordFields = RecordFields(
    verb: string, pathAndQuery: string, range: Option<string>, userName: Option<string>,
    from: Option<string>, requestBody: Option<string>, statusText: string,
    responseBody: Option<string>)

  /** The line `caption + value`, or no line when the value is null. */
  function Line(caption: string, value: Option<string>): (ls: seq<string>)
    ensures |ls| <= 1
  {
    if value.Some? then [caption + value.value] else []
  }

  /** An empty string is treated like null. */
  function NonEmpty(s: Option<string>): (r: Option<string>)
    ensures r.Some? <==> Present(s)
    ensures r.Some? ==> r == s
  {
    if Present(s) then s else None
  }

  /** The lines of a record, in the order the handler appends them. */
  function RecordLines(f: RecordFields): seq<string>
  {
    [f.verb + " " + f.pathAndQuery]
    + Line("Range: ", f.range)
    + Line("User: ", NonEmpty(f.userName))
    + Line("From: ", NonEmpty(f.from))
    + Line("Request body: ", f.requestBody)
    + ["Response code: " + f.statusText]
    + Line("Response body: ", f.responseBody)
  }

  /** The message logged: the rendered lines with trailing line-break characters trimmed. */
  function Record(f: RecordFields): string
  {
    TrimEnd(Render(RecordLines(f)), NewLineChars)
  }

  /** The number of optional lines a record carries. */
  function OptionalLineCount(f: RecordFields): nat
  {
    |Line("Range: ", f.range)| + |Line("User: ", NonEmpty(f.userName))| +
    |Line("From: ", NonEmpty(f.from))| + |Line("Request body: ", f.requestBody)| +
    |Line("Response body: ", f.responseBody)|
  }

  /**
   * The record's layout: the header first, the response code line
   * second-to-last or last (depending on whether there is a response body
   * line), and one line for each field that is present.
   */
  lemma RecordLinesLayout(f: RecordFields)
    ensures var ls := RecordLines(f);
            |ls| == 2 + OptionalLineCount(f) &&
            ls[0] == f.verb + " " + f.pathAndQuery &&
            ls[|ls| - 1] == (if f.responseBody.Some? then "Response body: " + f.responseBody.value
                             else "Response code: " + f.statusText) &&
            ls[|ls| - 1 - |Line("Response body: ", f.responseBody)|] == "Response code: " + f.statusText
  {
  }

  /** A request body line appears exactly when the request body has a description. */
  lemma RequestBodyLineIff(f: RecordFields)
    ensures var ls := RecordLines(f);
            var at := 1 + |Line("Range: ", f.range)| + |Line("User: ", NonEmpty(f.userName))| +
                      |Line("From: ", NonEmpty(f.from))|;
            at < |ls| &&
            (f.requestBody.Some? ==> ls[at] == "Request body: " + f.requestBody.value) &&
            (f.requestBody.None? <==> ls[at] == "Response code: " + f.statusText)
  {
    var pre := [f.verb + " " + f.pathAndQuery] + Line("Range: ", f.range)
               + Line("User: ", NonEmpty(f.userName)) + Line("From: ", NonEmpty(f.from));
    var code := "Response code: " + f.statusText;
    var ls := RecordLines(f);
    assert ls == pre + Line("Request body: ", f.requestBody) + [code] + Line("Response body: ", f.responseBody);
    if f.requestBody.Some? {
      var line := "Request body: " + f.requestBody.value;
      assert ls[|pre|] == line;
      assert line[2] != code[2];
    } else {
      assert ls[|pre|] == code;
    }
  }

  /** A line that starts with a character other than CR or LF survives trimming. */
  lemma {:induction false} TrimKeepsLeadingCharacter(line: string)
    requires |line| > 0 && line[0] !in NewLineChars
    ensures TrimEnd(line, NewLineChars) != []
  {
  }

  /**
   * The logged message is every line but the last followed by a line
   * break, then the last line without its trailing CR/LF characters.
   */
  lemma RecordText(f: RecordFields)
    ensures var ls := RecordLines(f);
            Record(f) == Render(ls[..|ls| - 1]) + TrimEnd(ls[|ls| - 1], NewLineChars)
  {
    LastLineSurvivesTrim(f);
    TrimRenderedLines(RecordLines(f));
  }

  /** The last line starts with "Response", so trimming cannot empty it. */
  lemma LastLineSurvivesTrim(f: RecordFields)
    ensures var ls := RecordLines(f);
            |ls| >= 2 && TrimEnd(ls[|ls| - 1], NewLineChars) != []
  {
    var ls := RecordLines(f);
    RecordLinesLayout(f);
    var last := ls[|ls| - 1];
    assert last[0] == 'R';
    TrimKeepsLeadingCharacter(last);
  }

  /** The logged message begins with "{method} {path and query}" and a line break. */
  lemma RecordStartsWithHeader(f: RecordFields)
    ensures f.verb + " " + f.pathAndQuery + NewLine <= Record(f)
  {
    LastLineSurvivesTrim(f);
    TrimmedRenderStartsWithFirstLine(RecordLines(f));
  }

  /** A GET of "/success" answered 200 with no body: logged at Debug as two lines. */
  lemma SuccessfulGetScenario()
    ensures GetLogLevel(200, "GET") == Debug
    ensures Record(RecordFields("GET", "/success", None, None, None, None, "OK", None))
            == "GET /success\r\nResponse code: OK"
  {
    assert IsGet("GET");
    var f := RecordFields("GET", "/success", None, None, None, None, "OK", None);
    var header, code := "GET /success", "Response code: OK";
    var ls := RecordLines(f);
    SuccessfulGetLines();
    RecordText(f);
    assert ls[..1] == [header] && ls[1] == code;
    RenderSingle(header);
    TrimEndUnique(code, NewLineChars, code);
    assert Record(f) == header + NewLine + code;
    SuccessfulGetText();
  }

  lemma SuccessfulGetText()
    ensures "GET /success" + NewLine + "Response code: OK" == "GET /success\r\nResponse code: OK"
  {
  }

  lemma SuccessfulGetLines()
    ensures RecordLines(RecordFields("GET", "/success", None, None, None, None, "OK", None))
            == ["GET /success", "Response code: OK"]
  {
    var f := RecordFields("GET", "/success", None, None, None, None, "OK", None);
    assert f.verb + " " + f.pathAndQuery == "GET /success";
    assert "Response code: " + f.statusText == "Response code: OK";
  }

  /** A POST of a JSON body answered 409 is an error, and the clean body is logged verbatim. */
  lemma ConflictingPostScenario(keywords: seq<string>)
    requires forall i, at :: 0 <= i < |keywords| ==> !OccursAt("{\"x\":1}", keywords[i], at, true)
    ensures GetLogLevel(409, "POST") == Error
    ensures BodyDescription(keywords, Some("application/json"), "{\"x\":1}") == Some("{\"x\":1}")
    ensures Record(RecordFields("POST", "/fail", None, None, None,
                                BodyDescription(keywords, Some("application/json"), "{\"x\":1}"),
                                "Conflict", None))
            == "POST /fail" + NewLine + "Request body: {\"x\":1}" + NewLine + "Response code: Conflict"
  {
    ApplicationJsonIsTextual();
    CleanBodyVerbatim(keywords, Some("application/json"), "{\"x\":1}");
    ConflictingPostRecord();
  }

  lemma ConflictingPostRecord()
    ensures Record(RecordFields("POST", "/fail", None, None, None, Some("{\"x\":1}"), "Conflict", None))
            == "POST /fail" + NewLine + "Request body: {\"x\":1}" + NewLine + "Response code: Conflict"
  {
    var f := RecordFields("POST", "/fail", None, None, None, Some("{\"x\":1}"), "Conflict", None);
    var header, body, code := "POST /fail", "Request body: {\"x\":1}", "Response code: Conflict";
    var ls := RecordLines(f);
    ConflictingPostLines();
    RecordText(f);
    assert ls[..2] == [header, body] && ls[2] == code;
    RenderTwo(header, body);
    TrimEndUnique(code, NewLineChars, code);
    assert Record(f) == header + NewLine + body + NewLine + code;
  }

  lemma ConflictingPostLines()
    ensures RecordLines(RecordFields("POST", "/fail", None, None, None, Some("{\"x\":1}"), "Conflict", None))
            == ["POST /fail", "Request body: {\"x\":1}", "Response code: Conflict"]
  {
    var f := RecordFields("POST", "/fail", None, None, None, Some("{\"x\":1}"), "Conflict", None);
    assert f.verb + " " + f.pathAndQuery == "POST /fail";
    assert "Request body: " + f.requestBody.value == "Request body: {\"x\":1}";
    assert "Response code: " + f.statusText == "Response code: Conflict";
  }

  /** Where `ReadBodyAsync` leaves the cursor of a body that was at `position`. */
  function AfterRead(b: Body, position: nat): nat
    reads b
  {
    if !IsXmlOrJson(b.mediaType) then position
    else if b.canSeek then 0
    else |b.text|
  }

  class RequestLoggingHandler {
    const logger: Logger
    const sensitiveKeywords: seq<string>

    constructor (logger: Logger, sensitiveKeywords: seq<string>)
      ensures this.logger == logger && this.sensitiveKeywords == sensitiveKeywords
    {
      this.logger := logger;
      this.sensitiveKeywords := sensitiveKeywords;
    }

    /**
     * `ReadBodyAsync`: the log description of a content. A textual body is
     * read after rewinding a seekable stream, and the stream is rewound again
     * afterwards, so a seekable body is left fully readable.
     */
    method ReadBody(content: Option<Body>) returns (d: Option<string>)
      requires ContentValid(content)
      modifies Bodies(content)
      ensures ContentValid(content)
      ensures d == Describe(sensitiveKeywords, content, old(Readable(content)))
      ensures content.Some? ==> content.value.canSeek == old(content.value.canSeek)
      ensures content.Some? ==>
                content.value.position == AfterRead(content.value, old(content.value.position))
    {
      if content.None? {
        return None;
      }
      var b := content.value;
      if IsXmlOrJson(b.mediaType) {
        if b.canSeek { b.Rewind(); }
        var body := b.ReadToEnd();
        if b.canSeek { b.Rewind(); }
        if body == "" {
          d := None;
        } else if ContainsSensitive(sensitiveKeywords, body) {
          d := Some(SensitiveMarker);
        } else {
          d := Some(body);
        }
      } else {
        d := b.mediaType;
      }
    }

    /**
     * The record-building part of `SendAsync`: the header line, the optional
     * lines in their fixed order, both body descriptions (request first),
     * and the final trim.
     */
    method Compose(verb: string, request: Request, response: Response, statusText: string)
      returns (message: string)
      requires ContentValid(request.content) && ContentValid(response.content)
      requires request.content.Some? && response.content.Some? ==>
                 request.content.value != response.content.value
      modifies Bodies(request.content), Bodies(response.content)
      ensures ContentValid(request.content) && ContentValid(response.content)
      ensures message == Record(RecordFields(
                verb, request.pathAndQuery, request.range, request.userName, request.from,
                Describe(sensitiveKeywords, request.content, old(Readable(request.content))),
                statusText,
                Describe(sensitiveKeywords, response.content, old(Readable(response.content)))))
      ensures request.content.Some? ==>
                request.content.value.canSeek == old(request.content.value.canSeek) &&
                request.content.value.position == AfterRead(request.content.value, old(request.content.value.position))
      ensures response.content.Some? ==>
                response.content.value.canSeek == old(response.content.value.canSeek) &&
                response.content.value.position == AfterRead(response.content.value, old(response.content.value.position))
    {
      var builder := new LineBuilder();
      builder.AppendLine(verb + " " + request.pathAndQuery);
      builder.AppendOptional("Range: ", request.range);
      builder.AppendOptional("User: ", NonEmpty(request.userName));
      builder.AppendOptional("From: ", NonEmpty(request.from));
      var requestBody := ReadBody(request.content);
      builder.AppendOptional("Request body: ", requestBody);
      builder.AppendLine("Response code: " + statusText);
      var responseBody := ReadBody(response.content);
      builder.AppendOptional("Response body: ", responseBody);
      message := TrimEnd(builder.text, NewLineChars);
    }

    /**
     * The forwarding part of `SendAsync`: a textual request body is buffered,
     * so that it can be rewound after the next handler has read it; then
     * the request goes to `next`, whose effects on the request (a rewritten
     * method, a consumed body stream) are applied.
     */
    method Forward(request: Request, next: RequestView -> Forwarded) returns (forwarded: Forwarded)
      requires ContentValid(request.content)
      modifies request, Bodies(request.content)
      ensures forwarded == next(old(request.View()))
      ensures request.verb == forwarded.verb
      ensures request.content.Some? ==>
                var b := request.content.value;
                b.Valid() && b.canSeek == (old(b.canSeek) || IsXmlOrJson(b.mediaType)) &&
                b.position == (if forwarded.consumedBody then |b.text| else old(b.position))
    {
      if request.content.Some? && IsXmlOrJson(request.content.value.mediaType) {
        request.content.value.LoadIntoBuffer();
      }
      forwarded := next(request.View());
      request.verb := forwarded.verb;
      if forwarded.consumedBody && request.content.Some? {
        var _ := request.content.value.ReadToEnd();
      }
    }

    /**
     * `SendAsync`: forwards the request to `next`, and logs the exchange
     * at the level the classifier gives for the method captured before
     * forwarding and the response's status code. `statusText` renders a
     * status code as `HttpStatusCode.ToString` does.
     */
    method Send(request: Request, next: RequestView -> Forwarded, statusText: int -> string)
      returns (response: Response)
      requires ContentValid(request.content)
      requires allocated(next(request.View()))
      requires ContentValid(next(request.View()).response.content)
      requires request.content.Some? && next(request.View()).response.content.Some? ==>
                 request.content.value != next(request.View()).response.content.value
      modifies request, logger, Bodies(request.content), Bodies(next(request.View()).response.content)
      ensures var fwd := next(old(request.View()));
              response == fwd.response && request.verb == fwd.verb
      ensures var fwd := next(old(request.View()));
              var level := GetLogLevel(fwd.response.status, old(request.verb));
              logger.entries == old(logger.entries) +
                if !logger.IsEnabled(level) then []
                else [LogEntry(level, Record(RecordFields(
                        old(request.verb), request.pathAndQuery, request.range, request.userName, request.from,
                        Describe(sensitiveKeywords, request.content, FullText(request.content)),
                        statusText(fwd.response.status),
                        Describe(sensitiveKeywords, fwd.response.content, old(Readable(fwd.response.content))))))]
      ensures request.content.Some? ==>
                var b, fwd := request.content.value, next(old(request.View()));
                var logged := logger.IsEnabled(GetLogLevel(fwd.response.status, old(request.verb)));
                b.Valid() && b.canSeek == (old(b.canSeek) || IsXmlOrJson(b.mediaType)) &&
                b.position == (if logged && IsXmlOrJson(b.mediaType) then 0
                               else if fwd.consumedBody then |b.text|
                               else old(b.position))
      ensures var fwd := next(old(request.View()));
              fwd.response.content.Some? ==>
                var c := fwd.response.content.value;
                var logged := logger.IsEnabled(GetLogLevel(fwd.response.status, old(request.verb)));
                c.Valid() && c.canSeek == old(c.canSeek) &&
                c.position == (if logged then AfterRead(c, old(c.position)) else old(c.position))
    {
      // The method is captured first: the next handler may rewrite it.
      var verb := request.verb;
      var forwarded := Forward(request, next);
      response := forwarded.response;
      var status := response.status;

      var level := GetLogLevel(status, verb);
      if logger.IsEnabled(level) {
        assert Describe(sensitiveKeywords, request.content, Readable(request.content))
            == Describe(sensitiveKeywords, request.content, FullText(request.content));
        var message := Compose(verb, request, response, statusText(status));
        logger.Log(level, message);
      }
    }
  }
}

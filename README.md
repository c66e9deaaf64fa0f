# RequestLoggingHandler, modelled in Dafny

This project models `RequestLoggingHandler`, an ASP.NET Web API message handler.
For every request it does the following:

- captures the HTTP method;
- buffers a textual request body;
- forwards the request to the next handler;
- classifies the exchange into one of NLog's six levels (Trace < Debug < Info < Warn < Error < Fatal);
- if the logger accepts that level, writes one multi-line record. The record describes the request and the response. A body that contains a configured sensitive keyword is redacted.

The response is returned unchanged.

The project has five files:

- `classifier.dfy` (module `Classifier`): `GetLogLevel` as a pure function. Lemmas cover each status band and the exact set of inputs that give each of the six levels, and relate methods to each other.
- `content.dfy` (module `Content`): the body of a message as a class `Body`. The body has fixed characters and a media type, a mutable stream cursor (`position`) and a `canSeek` flag. This module also holds `IsXmlOrJson`, keyword matching (`ContainsSensitive`) and the pure redaction policy (`BodyDescription`), with its lemmas.
- `handler.dfy` (module `RequestLogging`): the logger sink, a `StringBuilder` reduced to `AppendLine`, the request, and the handler class with `ReadBody` and `Send`. `Send` is split into `Forward` and `Compose`. The module also holds the pure record layout (`RecordLines`, `Record`) and lemmas about it.
- `text.dfy` (module `Text`): the .NET string operations the handler relies on. These are `IndexOf` (ordinal and ordinal-ignore-case), `Contains`, `TrimEnd` and the text a sequence of `AppendLine` calls produces.
- `wrappers.dfy`: `Option`, which stands for a C# reference that may be null.

Collaborators are modelled as parameters:

- The next handler is a function from a snapshot of the request (`RequestView`) to a `Forwarded` value. That value holds the response, the method the next handler leaves on the request, and whether it read the request body's stream to the end.
- Rendering a status code (`HttpStatusCode.ToString`, which gives an enum name such as "Conflict") is a function parameter `statusText`.
- The NLog logger is a `Logger` with a fixed set of enabled levels and the list of entries it has received.
- The caller's identity is an optional user name. The `Range` header is an optional, already rendered first range.

Where the code's behaviour is easy to misread:

- TRACE is not a lenient method. Only HEAD, GET and OPTIONS are.
- 403, 404 and 410 have their own branch: HEAD gives Info; GET, OPTIONS and DELETE give Warn; other methods give Error. So DELETE on 404 gives Warn, not Error.
- 416 gives Trace for HEAD, GET and OPTIONS, and Error otherwise.
- Codes below 200 give Trace.
- Only a media type containing "/xml" or "/json" counts as text. There is no `text/` rule, and the match is case-sensitive.
- A non-textual body is logged as `Request body: <media type>`, not as "has MIME type". A redacted body is logged as `Request body: contains sensitive data` (with a colon). A content without a media type gives no line.
- An optional `Range:` line comes right after the header line.
- The constructor's doc comment says a null logger falls back to a logger named `ApiRequest`. The code stores the logger as given, so this model takes a logger that exists.

## Model

| member | source | states |
|---|---|---|
| Classifier.GetLogLevel | WebApi.RequestLogging/RequestLoggingHandler.cs:98-143 | no contract; the if-chain over status and method, specified by the band and preimage lemmas below |
| Classifier.InformationalIsTrace | WebApi.RequestLogging/RequestLoggingHandler.cs:100-102 | a status below 200 is Trace for every method |
| Classifier.SuccessBand | WebApi.RequestLogging/RequestLoggingHandler.cs:104-110 | 2xx is Debug for HEAD/GET/OPTIONS and Info for every other method, TRACE, POST, PUT and DELETE included |
| Classifier.RedirectOrUnauthorizedBand | WebApi.RequestLogging/RequestLoggingHandler.cs:112-118 | 3xx and 401 are Info for HEAD/GET/OPTIONS and Warn otherwise |
| Classifier.ForbiddenNotFoundGoneBand | WebApi.RequestLogging/RequestLoggingHandler.cs:120-127 | 403/404/410 are Info for HEAD, Warn for GET/OPTIONS/DELETE, Error for every other method |
| Classifier.RangeNotSatisfiable | WebApi.RequestLogging/RequestLoggingHandler.cs:129-135 | 416 is Trace for HEAD/GET/OPTIONS and Error otherwise |
| Classifier.OtherClientErrorIsError | WebApi.RequestLogging/RequestLoggingHandler.cs:137-139 | any 4xx other than 401/403/404/410/416 is Error for every method |
| Classifier.ServerErrorIsFatal | WebApi.RequestLogging/RequestLoggingHandler.cs:141-142 | a status of 500 or more is Fatal for every method |
| Classifier.FatalIff | WebApi.RequestLogging/RequestLoggingHandler.cs:137-142 | Fatal is given exactly when the status is 500 or more |
| Classifier.TraceIff | WebApi.RequestLogging/RequestLoggingHandler.cs:100-135 | Trace is given exactly for statuses below 200 and for 416 with HEAD/GET/OPTIONS |
| Classifier.DebugIff | WebApi.RequestLogging/RequestLoggingHandler.cs:104-110 | Debug is given exactly for 2xx with HEAD/GET/OPTIONS |
| Classifier.InfoIff | WebApi.RequestLogging/RequestLoggingHandler.cs:104-127 | Info is given exactly for 2xx with other methods, 3xx/401 with HEAD/GET/OPTIONS, and 403/404/410 with HEAD |
| Classifier.WarnIff | WebApi.RequestLogging/RequestLoggingHandler.cs:112-127 | Warn is given exactly for 3xx/401 with other methods, and 403/404/410 with GET/OPTIONS/DELETE |
| Classifier.ErrorIff | WebApi.RequestLogging/RequestLoggingHandler.cs:120-139 | Error is given exactly for 403/404/410 with methods other than HEAD/GET/OPTIONS/DELETE, 416 with other methods, and every other 4xx |
| Classifier.LevelIgnoresMethodCase | WebApi.RequestLogging/RequestLoggingHandler.cs:107-132 | two method names equal ignoring case (HttpMethod equality) get the same level for every status |
| Classifier.TraceMethodClassifiedLikePost | WebApi.RequestLogging/RequestLoggingHandler.cs:107-132 | TRACE is not treated leniently: it gets POST's level for every status |
| Classifier.SafeNeverMoreSevere | WebApi.RequestLogging/RequestLoggingHandler.cs:98-143 | for every status, HEAD/GET/OPTIONS are logged no more severely than any other method |
| Classifier.HeadIsLeastSevere | WebApi.RequestLogging/RequestLoggingHandler.cs:98-143 | for every status, HEAD gets the lowest level of all methods |
| Text.IndexOf | WebApi.RequestLogging/RequestLoggingHandler.cs:85 | the result is the first index where the pattern occurs (case-sensitive or not), or -1 when it occurs nowhere |
| Text.TrimEnd | WebApi.RequestLogging/RequestLoggingHandler.cs:67 | the result is the prefix that ends in no trimmed character, and everything cut off is trimmed characters |
| Text.TrimRenderedLines | WebApi.RequestLogging/RequestLoggingHandler.cs:67 | trimming appended lines removes only the final line break and the CR/LF at the end of the last line |
| Content.IsXmlOrJson | WebApi.RequestLogging/RequestLoggingHandler.cs:92-96 | true exactly when the media type is present and "/xml" or "/json" occurs in it |
| Content.ApplicationJsonIsTextual | WebApi.RequestLogging/RequestLoggingHandler.cs:95 | application/json and text/xml are textual |
| Content.TextPlainIsNotTextual | WebApi.RequestLogging/RequestLoggingHandler.cs:92-96 | text/plain is not textual |
| Content.OctetStreamIsNotTextual | WebApi.RequestLogging/RequestLoggingHandler.cs:92-96 | application/octet-stream is not textual |
| Content.UpperCaseSubtypeIsNotTextual | WebApi.RequestLogging/RequestLoggingHandler.cs:95 | the media-type match is case-sensitive: application/JSON is not textual |
| Content.ContainsSensitive | WebApi.RequestLogging/RequestLoggingHandler.cs:85 | true exactly when some keyword is found in the body ignoring case |
| Content.BodyDescription | WebApi.RequestLogging/RequestLoggingHandler.cs:76-89 | no contract; the branches of ReadBodyAsync after the read, specified by the redaction lemmas below |
| Content.Describe | WebApi.RequestLogging/RequestLoggingHandler.cs:75 | absent content is described by null |
| Content.EmptyTextualBodyIsOmitted | WebApi.RequestLogging/RequestLoggingHandler.cs:83-84 | an empty textual body is described by null |
| Content.KeywordRedacts | WebApi.RequestLogging/RequestLoggingHandler.cs:85-86 | a keyword found anywhere in a non-empty textual body, in any case, gives the marker "contains sensitive data" instead of the text |
| Content.CleanBodyVerbatim | WebApi.RequestLogging/RequestLoggingHandler.cs:87 | a non-empty textual body containing no keyword is described by its own text |
| Content.NoKeywordsNoRedaction | WebApi.RequestLogging/RequestLoggingHandler.cs:85-87 | with no keywords, every non-empty textual body is logged verbatim |
| Content.EmptyKeywordRedactsEverything | WebApi.RequestLogging/RequestLoggingHandler.cs:85-86 | an empty keyword redacts every non-empty textual body |
| Content.NonTextualGivesMediaType | WebApi.RequestLogging/RequestLoggingHandler.cs:89 | a non-textual body is described by its media type, whatever its content and the keywords |
| Content.DescriptionShowsOnlyCleanText | WebApi.RequestLogging/RequestLoggingHandler.cs:83-87 | when the description is the body text itself, no keyword occurs in that text |
| Content.SecretRedactsUpperCase | WebApi.RequestLogging/RequestLoggingHandler.cs:85-86 | keyword "secret" redacts a JSON body holding "SECRET" |
| Content.Body.LoadIntoBuffer | WebApi.RequestLogging/RequestLoggingHandler.cs:36 | buffering makes the body's stream seekable and keeps its cursor |
| Content.Body.Rewind | WebApi.RequestLogging/RequestLoggingHandler.cs:79 | a seekable stream's cursor is set to 0 |
| Content.Body.ReadToEnd | WebApi.RequestLogging/RequestLoggingHandler.cs:80 | a read yields the characters from the cursor to the end and leaves the cursor at the end |
| RequestLogging.Logger.IsEnabled | WebApi.RequestLogging/RequestLoggingHandler.cs:42 | no contract; the logger accepts a level exactly when it is in its enabled set |
| RequestLogging.Logger.Log | WebApi.RequestLogging/RequestLoggingHandler.cs:67 | a message is appended to the logger's entries at the given level |
| RequestLogging.LineBuilder.AppendLine | WebApi.RequestLogging/RequestLoggingHandler.cs:45 | the builder's text is its lines, each followed by a line break |
| RequestLogging.LineBuilder.AppendOptional | WebApi.RequestLogging/RequestLoggingHandler.cs:58-59 | a line is appended only when its value is not null |
| RequestLogging.RequestLoggingHandler.constructor | WebApi.RequestLogging/RequestLoggingHandler.cs:22-26 | the logger and the keywords are stored as given |
| RequestLogging.RequestLoggingHandler.ReadBody | WebApi.RequestLogging/RequestLoggingHandler.cs:73-90 | the result is the body's description; a textual seekable body is read in full and its cursor is 0 afterwards; a non-seekable one is read from its cursor, which ends at the end; a non-textual body's cursor is unchanged |
| RequestLogging.RequestLoggingHandler.Forward | WebApi.RequestLogging/RequestLoggingHandler.cs:31-38 | a textual request body becomes seekable before forwarding; the next handler receives the request as it was on entry, and its method rewrite and body consumption are applied |
| RequestLogging.RequestLoggingHandler.Compose | WebApi.RequestLogging/RequestLoggingHandler.cs:44-67 | the message is the trimmed record of the captured method, path, range, user, From, request description, status text and response description; each body's cursor ends where ReadBody leaves it |
| RequestLogging.RequestLoggingHandler.Send | WebApi.RequestLogging/RequestLoggingHandler.cs:28-71 | the response is the next handler's, unchanged; the level comes from the method captured before forwarding; a disabled level adds no log entry and leaves the response body unread; otherwise exactly one entry is added, and its request body is described from the full text; a textual request body and a seekable textual response body end at position 0 |
| RequestLogging.RecordLines | WebApi.RequestLogging/RequestLoggingHandler.cs:44-65 | no contract; the lines in the order they are appended, specified by RecordLinesLayout and RequestBodyLineIff |
| RequestLogging.Record | WebApi.RequestLogging/RequestLoggingHandler.cs:67 | no contract; the rendered lines with trailing CR/LF trimmed, specified by RecordText and RecordStartsWithHeader |
| RequestLogging.RecordLinesLayout | WebApi.RequestLogging/RequestLoggingHandler.cs:45-65 | the header comes first, the response code line is last or just before the response body line, and there is one line per present field |
| RequestLogging.RequestBodyLineIff | WebApi.RequestLogging/RequestLoggingHandler.cs:57-61 | the line after the optional header lines is the request body line exactly when a description exists, and is the response code line otherwise |
| RequestLogging.RecordText | WebApi.RequestLogging/RequestLoggingHandler.cs:67 | the logged message is all lines but the last, each followed by a line break, then the last line without trailing CR/LF |
| RequestLogging.RecordStartsWithHeader | WebApi.RequestLogging/RequestLoggingHandler.cs:45-67 | the logged message begins with "{method} {path and query}" and a line break |
| RequestLogging.SuccessfulGetScenario | WebApi.RequestLogging/RequestLoggingHandler.cs:41-67 | GET /success answered 200 with no body is logged at Debug as "GET /success", a line break, "Response code: OK" |
| RequestLogging.ConflictingPostScenario | WebApi.RequestLogging/RequestLoggingHandler.cs:41-67 | POST /fail of a clean JSON body answered 409 is Error, and the logged message is "POST /fail", "Request body: {"x":1}" and "Response code: Conflict" separated by line breaks |

## Left out

- WebApi.RequestLogging/HttpConfigurationExtensions.cs only registers the handler. It ignores its logger and keyword parameters, so it has no logic to model. The Sample project is demo routes and configuration.
- `async`/`Task` and the `CancellationToken` are not modelled. The calls run in sequence, and nothing is concurrent within one exchange.
- Exceptions are not modelled. This covers exceptions from the next handler or from reading a body, a null keyword array, and null keywords. The code has no try/catch.
- Case-insensitive comparison (`OrdinalIgnoreCase`, and `HttpMethod` equality) folds ASCII letters only. .NET also folds other letters.
- Bodies are sequences of characters. Byte decoding in `ReadAsStringAsync` is not modelled.
- `Content.Body.LoadIntoBuffer` only makes the stream seekable. A read yields the text from the cursor onwards. The rest of `HttpContent`'s buffering is not modelled.
- `RequestLogging.RequestLoggingHandler.Send`: the next handler's effects on the request are limited to rewriting the method and reading the request body's stream. Rewrites of headers or the URI are not modelled.
- `RequestLogging.RequestLoggingHandler.Send` requires the response body to be a different object from the request body. A handler that echoes the request content back (aliasing) is not modelled.
- `RequestLogging.RequestLoggingHandler.Send` requires every object the next handler returns to exist already (`allocated`). This requirement comes from the model, not from the code.
- `HttpStatusCode.ToString` is the `statusText` parameter and is not spelled out. The enum names belong to the framework.
- `Range` header parsing and identity resolution are not modelled. Each is an optional string given as input.
- `Environment.NewLine` is fixed to "\r\n", as on the .NET Framework.
- NLog's level configuration is a fixed set of enabled levels.

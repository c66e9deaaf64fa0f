/**
 * The severity classifier of `RequestLoggingHandler.GetLogLevel`: a total
 * function from (status code, HTTP method) to one of NLog's six levels.
 */
module Classifier {
  import opened Text

  /** NLog's levels, from least to most severe. */
  datatype Level = Trace | Debug | Info | Warn | Error | Fatal

  /** NLog's level ordinal: the order of severity. */
  function Ordinal(l: Level): (n: nat)
    ensures n <= 5
    ensures l == Trace <==> n == 0
    ensures l == Fatal <==> n == 5
  {
    match l
    case Trace => 0
    case Debug => 1
    case Info => 2
    case Warn => 3
    case Error => 4
    case Fatal => 5
  }

  // The `HttpStatusCode` members the classifier compares against.
  const OK: int := 200
  const BadRequest: int := 400
  const Unauthorized: int := 401
  const Forbidden: int := 403
  const NotFound: int := 404
  const Gone: int := 410
  const RequestedRangeNotSatisfiable: int := 416
  const InternalServerError: int := 500

  /** `HttpMethod` equality, which compares the method names ignoring case. */
  predicate IsHead(m: string) { EqualsIgnoreCase(m, "HEAD") }
  predicate IsGet(m: string) { EqualsIgnoreCase(m, "GET") }
  predicate IsOptions(m: string) { EqualsIgnoreCase(m, "OPTIONS") }
  predicate IsDelete(m: string) { EqualsIgnoreCase(m, "DELETE") }

  /** HEAD, GET and OPTIONS: the methods the classifier treats leniently. */
  predicate IsSafe(m: string)
  {
    IsHead(m) || IsGet(m) || IsOptions(m)
  }

  /** `GetLogLevel(statusCode, verb)`. */
  function GetLogLevel(status: int, verb: string): Level
  {
    if status < OK then Trace
    else if status < 300 then
      (if IsSafe(verb) then Debug else Info)
    else if status < BadRequest || status == Unauthorized then
      (if IsSafe(verb) then Info else Warn)
    else if status == Forbidden || status == NotFound || status == Gone then
      (if IsHead(verb) then Info
       else if IsGet(verb) || IsOptions(verb) || IsDelete(verb) then Warn
       else Error)
    else if status == RequestedRangeNotSatisfiable then
      (if IsSafe(verb) then Trace else Error)
    else if status < InternalServerError then Error
    else Fatal
  }

  // ---- The decision table, one band at a time ----

  lemma InformationalIsTrace(status: int, verb: string)
    requires status < 200
    ensures GetLogLevel(status, verb) == Trace
  {
  }

  lemma SuccessBand(status: int, verb: string)
    requires 200 <= status < 300
    ensures GetLogLevel(status, verb) == (if IsSafe(verb) then Debug else Info)
  {
  }

  lemma RedirectOrUnauthorizedBand(status: int, verb: string)
    requires 300 <= status < 400 || status == 401
    ensures GetLogLevel(status, verb) == (if IsSafe(verb) then Info else Warn)
  {
  }

  lemma ForbiddenNotFoundGoneBand(status: int, verb: string)
    requires status == 403 || status == 404 || status == 410
    ensures IsHead(verb) ==> GetLogLevel(status, verb) == Info
    ensures !IsHead(verb) && (IsGet(verb) || IsOptions(verb) || IsDelete(verb)) ==>
              GetLogLevel(status, verb) == Warn
    ensures !IsSafe(verb) && !IsDelete(verb) ==> GetLogLevel(status, verb) == Error
  {
  }

  lemma RangeNotSatisfiable(verb: string)
    ensures GetLogLevel(416, verb) == (if IsSafe(verb) then Trace else Error)
  {
  }

  lemma OtherClientErrorIsError(status: int, verb: string)
    requires 400 <= status < 500
    requires status !in {401, 403, 404, 410, 416}
    ensures GetLogLevel(status, verb) == Error
  {
  }

  lemma ServerErrorIsFatal(status: int, verb: string)
    requires status >= 500
    ensures GetLogLevel(status, verb) == Fatal
  {
  }

  // ---- Characterisations: which inputs reach each extreme level ----

  /** Fatal is reached exactly by the 5xx (and higher) codes, whatever the method. */
  lemma FatalIff(status: int, verb: string)
    ensures GetLogLevel(status, verb) == Fatal <==> status >= 500
  {
  }

  /** Trace is reached by codes below 200, and by 416 for a lenient method. */
  lemma TraceIff(status: int, verb: string)
    ensures GetLogLevel(status, verb) == Trace <==>
              status < 200 || (status == 416 && IsSafe(verb))
  {
  }

  /** Debug is reached only by a 2xx answer to HEAD, GET or OPTIONS. */
  lemma DebugIff(status: int, verb: string)
    ensures GetLogLevel(status, verb) == Debug <==> 200 <= status < 300 && IsSafe(verb)
  {
  }

  /** Info: 2xx for other methods, 3xx/401 for lenient ones, 403/404/410 for HEAD. */
  lemma InfoIff(status: int, verb: string)
    ensures GetLogLevel(status, verb) == Info <==>
              (200 <= status < 300 && !IsSafe(verb)) ||
              ((300 <= status < 400 || status == 401) && IsSafe(verb)) ||
              ((status == 403 || status == 404 || status == 410) && IsHead(verb))
  {
  }

  /** Warn: 3xx/401 for other methods, 403/404/410 for GET, OPTIONS or DELETE (but not HEAD). */
  lemma WarnIff(status: int, verb: string)
    ensures GetLogLevel(status, verb) == Warn <==>
              ((300 <= status < 400 || status == 401) && !IsSafe(verb)) ||
              ((status == 403 || status == 404 || status == 410) && !IsHead(verb) &&
               (IsGet(verb) || IsOptions(verb) || IsDelete(verb)))
  {
  }

  /** Error: 403/404/410 and 416 for the remaining methods, and every other 4xx. */
  lemma ErrorIff(status: int, verb: string)
    ensures GetLogLevel(status, verb) == Error <==>
              ((status == 403 || status == 404 || status == 410) && !IsSafe(verb) && !IsDelete(verb)) ||
              (status == 416 && !IsSafe(verb)) ||
              (400 <= status < 500 && status !in {401, 403, 404, 410, 416})
  {
  }

  // ---- Relations between methods ----

  /** A method name that matches ignoring case is an equal `HttpMethod`. */
  lemma {:induction false} EqualsIgnoreCaseTransitive(a: string, b: string, c: string)
    requires EqualsIgnoreCase(a, b) && EqualsIgnoreCase(b, c)
    ensures EqualsIgnoreCase(a, c)
  {
    forall i | 0 <= i < |a| ensures CharEquals(a[i], c[i], true) {
      assert CharEquals(a[i], b[i], true) && CharEquals(b[i], c[i], true);
    }
  }

  lemma {:induction false} EqualsIgnoreCaseSymmetric(a: string, b: string)
    requires EqualsIgnoreCase(a, b)
    ensures EqualsIgnoreCase(b, a)
  {
    forall i | 0 <= i < |b| ensures CharEquals(b[i], a[i], true) {
      assert CharEquals(a[i], b[i], true);
    }
  }

  /** The level depends on the method only up to case: "get" is classified as "GET". */
  lemma LevelIgnoresMethodCase(status: int, m1: string, m2: string)
    requires EqualsIgnoreCase(m1, m2)
    ensures GetLogLevel(status, m1) == GetLogLevel(status, m2)
  {
    EqualsIgnoreCaseSymmetric(m1, m2);
    forall name: string | EqualsIgnoreCase(m1, name) ensures EqualsIgnoreCase(m2, name) {
      EqualsIgnoreCaseTransitive(m2, m1, name);
    }
    forall name: string | EqualsIgnoreCase(m2, name) ensures EqualsIgnoreCase(m1, name) {
      EqualsIgnoreCaseTransitive(m1, m2, name);
    }
  }

  /** TRACE is not among the lenient methods: it is classified like POST for every code. */
  lemma TraceMethodClassifiedLikePost(status: int)
    ensures GetLogLevel(status, "TRACE") == GetLogLevel(status, "POST")
  {
    assert !IsSafe("TRACE") && !IsDelete("TRACE") by {
      assert !CharEquals("TRACE"[1], "OPTIONS"[1], true);
    }
    assert !IsSafe("POST") && !IsDelete("POST") by {
      assert !CharEquals("POST"[0], "HEAD"[0], true);
    }
  }

  /** For every code, a lenient method is logged no more severely than any other method. */
  lemma SafeNeverMoreSevere(status: int, safe: string, other: string)
    requires IsSafe(safe) && !IsSafe(other)
    ensures Ordinal(GetLogLevel(status, safe)) <= Ordinal(GetLogLevel(status, other))
  {
  }

  /** HEAD is logged at the lowest level of any method, for every code. */
  lemma HeadIsLeastSevere(status: int, verb: string)
    ensures Ordinal(GetLogLevel(status, "HEAD")) <= Ordinal(GetLogLevel(status, verb))
  {
    assert IsHead("HEAD");
  }
}

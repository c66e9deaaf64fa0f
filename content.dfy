/**
 * Message bodies as the request logger sees them: the declared media type,
 * the body's characters and a stream cursor (`Position`, `CanSeek`), plus
 * the pure policy that turns a body into its log description.
 */
module Content {
  import opened Wrappers
  import opened Text

  /**
   * An `HttpContent` with its underlying stream. The characters never
   * change; reading moves the cursor, and buffering makes the stream seekable.
   */
  class Body {
    const mediaType: Option<string>
    const text: string
    var position: nat
    var canSeek: bool

    ghost predicate Valid()
      reads this
    {
      position <= |text|
    }

    constructor (mediaType: Option<string>, text: string, canSeek: bool)
      ensures Valid()
      ensures this.mediaType == mediaType && this.text == text
      ensures this.canSeek == canSeek && position == 0
    {
      this.mediaType := mediaType;
      this.text := text;
      this.canSeek := canSeek;
      position := 0;
    }

    /** `LoadIntoBufferAsync`: the content is held in memory and its stream becomes seekable. */
    method LoadIntoBuffer()
      requires Valid()
      modifies this
      ensures Valid() && canSeek && position == old(position)
    {
      canSeek := true;
    }

    /** `stream.Position = 0`, allowed only on a seekable stream. */
    method Rewind()
      requires Valid() && canSeek
      modifies this
      ensures Valid() && canSeek && position == 0
    {
      position := 0;
    }

    /** `ReadAsStringAsync`: the characters from the cursor to the end; the cursor ends at the end. */
    method ReadToEnd() returns (s: string)
      requires Valid()
      modifies this
      ensures Valid() && canSeek == old(canSeek)
      ensures s == text[old(position)..] && position == |text|
      ensures |s| + old(position) == |text|
    {
      s := text[position..];
      position := |text|;
    }
  }

  /** The objects an optional content consists of. */
  function Bodies(content: Option<Body>): set<Body>
  {
    if content.Some? then {content.value} else {}
  }

  ghost predicate ContentValid(content: Option<Body>)
    reads Bodies(content)
  {
    content.Some? ==> content.value.Valid()
  }

  /** All characters of an optional content ("" when absent). */
  function FullText(content: Option<Body>): string
  {
    if content.Some? then content.value.text else ""
  }

  /** What a read of `body` yields: everything if it can seek back to 0, otherwise what is left. */
  function ReadableText(canSeek: bool, position: nat, text: string): (s: string)
    requires position <= |text|
    ensures |s| == (if canSeek then |text| else |text| - position)
    ensures s == text[|text| - |s|..]
  {
    if canSeek then text else text[position..]
  }

  /** What a read of an optional content yields in its current state. */
  ghost function Readable(content: Option<Body>): string
    requires ContentValid(content)
    reads Bodies(content)
  {
    if content.Some? then ReadableText(content.value.canSeek, content.value.position, content.value.text) else ""
  }

  /**
   * `IsXmlOrJson`: the media type is present and contains "/xml" or
   * "/json" (ordinal, so case matters; there is no `text/` rule).
   */
  function IsXmlOrJson(mediaType: Option<string>): (b: bool)
    ensures b <==> mediaType.Some? &&
                   ((exists k :: OccursAt(mediaType.value, "/xml", k, false)) ||
                    (exists k :: OccursAt(mediaType.value, "/json", k, false)))
  {
    mediaType.Some? && (Contains(mediaType.value, "/xml") || Contains(mediaType.value, "/json"))
  }

  lemma ApplicationJsonIsTextual()
    ensures IsXmlOrJson(Some("application/json"))
    ensures IsXmlOrJson(Some("text/xml"))
  {
    assert OccursAt("application/json", "/json", 11, false);
    assert OccursAt("text/xml", "/xml", 4, false);
  }

  /** One mismatching character rules out an occurrence at `k`. */
  lemma Mismatch(s: string, p: string, k: int, j: nat)
    requires j < |p| && 0 <= k && k + j < |s| && s[k + j] != p[j]
    ensures !OccursAt(s, p, k, false)
  {
  }

  /** A media type whose only '/' is followed by neither 'x' nor 'j' is not textual. */
  lemma NotTextualAfterSlash(t: string, slash: nat)
    requires slash + 1 < |t| && t[slash] == '/' && t[slash + 1] != 'x' && t[slash + 1] != 'j'
    requires forall i :: 0 <= i < |t| && i != slash ==> t[i] != '/'
    ensures !IsXmlOrJson(Some(t))
  {
    forall k ensures !OccursAt(t, "/xml", k, false) && !OccursAt(t, "/json", k, false) {
      if 0 <= k < |t| {
        var j := if k == slash then 1 else 0;
        Mismatch(t, "/xml", k, j);
        Mismatch(t, "/json", k, j);
      }
    }
  }

  /** `text/plain` is not treated as text: only "/xml" and "/json" count. */
  lemma TextPlainIsNotTextual()
    ensures !IsXmlOrJson(Some("text/plain"))
  {
    NotTextualAfterSlash("text/plain", 4);
  }

  lemma OctetStreamIsNotTextual()
    ensures !IsXmlOrJson(Some("application/octet-stream"))
  {
    NotTextualAfterSlash("application/octet-stream", 11);
  }

  /** The comparison is ordinal: an upper-case "JSON" subtype is not recognised. */
  lemma UpperCaseSubtypeIsNotTextual()
    ensures !IsXmlOrJson(Some("application/JSON"))
  {
    NotTextualAfterSlash("application/JSON", 11);
  }

  /**
   * `keywords.Any(x => body.IndexOf(x, OrdinalIgnoreCase) >= 0)`: some
   * keyword occurs in the body when case is ignored.
   */
  function ContainsSensitive(keywords: seq<string>, body: string): (b: bool)
    ensures b <==> exists i :: 0 <= i < |keywords| && IndexOf(body, keywords[i], true) >= 0
  {
    if keywords == [] then false
    else IndexOf(body, keywords[0], true) >= 0 || ContainsSensitive(keywords[1..], body)
  }

  /** The marker logged in place of a body that holds a keyword. */
  const SensitiveMarker: string := "contains sensitive data"

  /**
   * `ReadBodyAsync`'s result for a present content whose read produced
   * `readText`: None stands for C#'s null.
   */
  function BodyDescription(keywords: seq<string>, mediaType: Option<string>, readText: string): Option<string>
  {
    if IsXmlOrJson(mediaType) then
      if readText == "" then None
      else if ContainsSensitive(keywords, readText) then Some(SensitiveMarker)
      else Some(readText)
    else mediaType
  }

  /** The same, for an optional content: absent content is described by null. */
  function Describe(keywords: seq<string>, content: Option<Body>, readText: string): (d: Option<string>)
    ensures content.None? ==> d.None?
  {
    match content
    case None => None
    case Some(b) => BodyDescription(keywords, b.mediaType, readText)
  }

  // ---- The redaction policy ----

  lemma EmptyTextualBodyIsOmitted(keywords: seq<string>, mediaType: Option<string>)
    requires IsXmlOrJson(mediaType)
    ensures BodyDescription(keywords, mediaType, "") == None
  {
  }

  /** A keyword found anywhere in a textual body, in any case, replaces the whole body by the marker. */
  lemma KeywordRedacts(keywords: seq<string>, mediaType: Option<string>, text: string, i: nat, at: int)
    requires IsXmlOrJson(mediaType) && text != ""
    requires i < |keywords| && OccursAt(text, keywords[i], at, true)
    ensures BodyDescription(keywords, mediaType, text) == Some(SensitiveMarker)
  {
    assert IndexOf(text, keywords[i], true) >= 0;
  }

  /** A textual body in which no keyword occurs is logged verbatim. */
  lemma CleanBodyVerbatim(keywords: seq<string>, mediaType: Option<string>, text: string)
    requires IsXmlOrJson(mediaType) && text != ""
    requires forall i, at :: 0 <= i < |keywords| ==> !OccursAt(text, keywords[i], at, true)
    ensures BodyDescription(keywords, mediaType, text) == Some(text)
  {
  }

  /** An empty keyword list switches redaction off. */
  lemma NoKeywordsNoRedaction(mediaType: Option<string>, text: string)
    requires IsXmlOrJson(mediaType) && text != ""
    ensures BodyDescription([], mediaType, text) == Some(text)
  {
  }

  /** An empty keyword occurs in every body, so it redacts every non-empty textual body. */
  lemma EmptyKeywordRedactsEverything(keywords: seq<string>, mediaType: Option<string>, text: string)
    requires IsXmlOrJson(mediaType) && text != ""
    requires "" in keywords
    ensures BodyDescription(keywords, mediaType, text) == Some(SensitiveMarker)
  {
    var i :| 0 <= i < |keywords| && keywords[i] == "";
    EmptyPatternFoundAtStart(text, true);
  }

  /** A non-textual body is described by its media type only, whatever its characters and the keywords. */
  lemma NonTextualGivesMediaType(keywords: seq<string>, mediaType: Option<string>, text: string)
    requires !IsXmlOrJson(mediaType)
    ensures BodyDescription(keywords, mediaType, text) == mediaType
  {
  }

  /** A description that is not the marker and not the media type is the text itself, holding no keyword. */
  lemma {:induction false} DescriptionShowsOnlyCleanText(keywords: seq<string>, mediaType: Option<string>, text: string)
    requires BodyDescription(keywords, mediaType, text) == Some(text)
    requires text != SensitiveMarker && Some(text) != mediaType
    ensures forall i, at :: 0 <= i < |keywords| ==> !OccursAt(text, keywords[i], at, true)
  {
    forall i, at | 0 <= i < |keywords| ensures !OccursAt(text, keywords[i], at, true) {
      if OccursAt(text, keywords[i], at, true) {
        KeywordRedacts(keywords, mediaType, text, i, at);
      }
    }
  }

  /** "secret" redacts a JSON body holding "SECRET". */
  lemma SecretRedactsUpperCase()
    ensures BodyDescription(["secret"], Some("application/json"), "{\"SECRET\":1}") == Some(SensitiveMarker)
  {
    ApplicationJsonIsTextual();
    SecretFoundInUpperCase();
    KeywordRedacts(["secret"], Some("application/json"), "{\"SECRET\":1}", 0, 2);
  }

  lemma SecretFoundInUpperCase()
    ensures OccursAt("{\"SECRET\":1}", "secret", 2, true)
  {
    var body := "{\"SECRET\":1}";
    forall j | 0 <= j < 6 ensures CharEquals(body[2 + j], "secret"[j], true) {
      assert body[2 + j] == "SECRET"[j];
    }
  }
}

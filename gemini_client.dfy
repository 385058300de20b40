/** `GeminiClient`: one best-effort call to the generative-text endpoint and
    the extraction of the first usable text part from its reply. The HTTP
    exchange itself is the `transport` function. */
module Gemini {
  import opened Wrappers
  import opened Text
  import opened Json
  import opened Prompts

  /** What `postForEntity` did: a reply body (possibly null), a
      `RestClientException`, or some other exception. */
  datatype Exchange = Responded(body: Option<JsonNode>) | RestClientFailure | OtherFailure

  /** Why `generate` threw; each is raised with `INTERNAL_SERVER_ERROR`. */
  datatype GeminiFailure = ApiKeyMissing | CallFailed | ProcessingFailed | ResponseUnreadable

  /** The error code every failure surfaces with. */
  function FailureCode(f: GeminiFailure): ErrorCode {
    InternalServerError
  }

  predicate KeyConfigured(apiKey: Option<string>) {
    apiKey.Some? && !IsBlank(apiKey.value)
  }

  /** `buildUrl`: the key is appended as a further query parameter when the
      URL already has a query, and starts the query otherwise. */
  function BuildUrl(url: string, key: string): (r: string)
    ensures |r| == |url| + 5 + |key|
    ensures r[..|url|] == url && r[|url| + 5..] == key
    ensures r[|url|..|url| + 5] == (if '?' in url then "&key=" else "?key=")
    ensures '?' in r
  {
    var r := if '?' in url then url + "&key=" + key else url + "?key=" + key;
    assert r[|url|..|url| + 5] == (if '?' in url then "&key=" else "?key=");
    assert r[|url|] == '?' || (exists k :: 0 <= k < |url| && url[k] == '?' && r[k] == '?');
    r
  }

  /** A part's text: `part.path("text").asText(null)`. */
  function PartText(part: JsonNode): Option<string> {
    AsTextOr(Path(part, "text"), None)
  }

  /** `candidate.path("content").path("parts")`. */
  function PartsOf(candidate: JsonNode): JsonNode {
    Path(Path(candidate, "content"), "parts")
  }

  /** The texts of a candidate's parts, in order; none unless `parts` is an array. */
  function CandidateTexts(candidate: JsonNode): seq<Option<string>> {
    var parts := PartsOf(candidate);
    if parts.JArray? then seq(|parts.elems|, i requires 0 <= i < |parts.elems| => PartText(parts.elems[i])) else []
  }

  /** The part texts of all candidates, candidate by candidate. */
  function AllTexts(candidates: seq<JsonNode>): seq<Option<string>> {
    if candidates == [] then []
    else AllTexts(candidates[..|candidates| - 1]) + CandidateTexts(candidates[|candidates| - 1])
  }

  lemma {:induction false} AllTextsAppend(a: seq<JsonNode>, b: seq<JsonNode>)
    ensures AllTexts(a + b) == AllTexts(a) + AllTexts(b)
  {
    if b != [] {
      assert (a + b)[..|a + b| - 1] == a + b[..|b| - 1];
      AllTextsAppend(a, b[..|b| - 1]);
    } else {
      assert a + b == a;
    }
  }

  predicate Usable(t: Option<string>) {
    t.Some? && !IsBlank(t.value)
  }

  /** The first non-null, non-blank text, or null when there is none. */
  function FirstNonBlank(ts: seq<Option<string>>): (r: Option<string>)
    ensures r.Some? ==> !IsBlank(r.value)
  {
    if ts == [] then None
    else if Usable(ts[0]) then ts[0]
    else FirstNonBlank(ts[1..])
  }

  /** The text found is usable, stands at some index with nothing usable
      before it, and nothing is found exactly when no text is usable. */
  lemma {:induction false} FirstNonBlankSpec(ts: seq<Option<string>>)
    ensures var r := FirstNonBlank(ts);
      r.Some? ==> exists k :: 0 <= k < |ts| && ts[k] == r && forall j :: 0 <= j < k ==> !Usable(ts[j])
    ensures FirstNonBlank(ts).None? <==> forall j :: 0 <= j < |ts| ==> !Usable(ts[j])
  {
    if ts != [] && !Usable(ts[0]) {
      var tail := ts[1..];
      FirstNonBlankSpec(tail);
      assert forall j :: 1 <= j < |ts| ==> ts[j] == tail[j - 1];
      var r := FirstNonBlank(tail);
      if r.Some? {
        var k :| 0 <= k < |tail| && tail[k] == r && forall j :: 0 <= j < k ==> !Usable(tail[j]);
        assert ts[k + 1] == r;
      }
    }
  }

  lemma {:induction false} FirstNonBlankAppend(a: seq<Option<string>>, b: seq<Option<string>>)
    ensures FirstNonBlank(a + b) == if FirstNonBlank(a).Some? then FirstNonBlank(a) else FirstNonBlank(b)
  {
    if a != [] {
      assert (a + b)[1..] == a[1..] + b;
      FirstNonBlankAppend(a[1..], b);
    } else {
      assert a + b == b;
    }
  }

  /** `extractText(root)`, specified: null without a `candidates` array,
      otherwise the first usable part text across candidates in order. */
  function ExtractedText(root: Option<JsonNode>): Option<string> {
    if root.None? || !Has(root.value, "candidates") || !Get(root.value, "candidates").value.JArray? then None
    else FirstNonBlank(AllTexts(Get(root.value, "candidates").value.elems))
  }

  /** Nothing usable before candidate `i`, nothing in it: nothing up to `i + 1`. */
  lemma ExtractStep(candidates: seq<JsonNode>, i: nat)
    requires i < |candidates|
    requires FirstNonBlank(AllTexts(candidates[..i])) == None
    requires FirstNonBlank(CandidateTexts(candidates[i])) == None
    ensures FirstNonBlank(AllTexts(candidates[..i + 1])) == None
  {
    assert candidates[..i + 1][..i] == candidates[..i];
    FirstNonBlankAppend(AllTexts(candidates[..i]), CandidateTexts(candidates[i]));
  }

  /** A usable text after nothing usable is the first usable one. */
  lemma {:induction false} FoundAt(ts: seq<Option<string>>, j: nat)
    requires j < |ts| && FirstNonBlank(ts[..j]) == None && Usable(ts[j])
    ensures FirstNonBlank(ts) == ts[j]
    decreases j
  {
    if j > 0 {
      var tail := ts[1..];
      assert ts[..j][1..] == tail[..j - 1];
      assert tail[j - 1] == ts[j];
      FoundAt(tail, j - 1);
    }
  }

  lemma {:induction false} AllTextsSplit(candidates: seq<JsonNode>, i: nat)
    requires i < |candidates|
    ensures AllTexts(candidates)
         == AllTexts(candidates[..i]) + CandidateTexts(candidates[i]) + AllTexts(candidates[i + 1..])
  {
    var pre, c, post := candidates[..i], candidates[i], candidates[i + 1..];
    var head := pre + [c];
    assert candidates == head + post;
    AllTextsAppend(head, post);
    AllTextsAppend(pre, [c]);
    assert AllTexts([c]) == CandidateTexts(c) by {
      assert [c][..0] == [];
    }
  }

  /** The first usable text of candidate `i`, after nothing usable, is the first overall. */
  lemma ExtractFound(candidates: seq<JsonNode>, i: nat, j: nat)
    requires i < |candidates| && j < |CandidateTexts(candidates[i])|
    requires FirstNonBlank(AllTexts(candidates[..i])) == None
    requires FirstNonBlank(CandidateTexts(candidates[i])[..j]) == None
    requires Usable(CandidateTexts(candidates[i])[j])
    ensures FirstNonBlank(AllTexts(candidates)) == CandidateTexts(candidates[i])[j]
  {
    var texts := CandidateTexts(candidates[i]);
    FoundAt(texts, j);
    var pre := AllTexts(candidates[..i]);
    var post := AllTexts(candidates[i + 1..]);
    AllTextsSplit(candidates, i);
    FirstNonBlankAppend(pre, texts);
    FirstNonBlankAppend(pre + texts, post);
  }

  /** `extractText`: scans candidates in order and the parts of each in order,
      and returns the first text that is neither null nor blank. */
  method ExtractText(root: Option<JsonNode>) returns (text: Option<string>)
    ensures text == ExtractedText(root)
    ensures text.Some? ==> !IsBlank(text.value)
  {
    if root.None? || !Has(root.value, "candidates") || !Get(root.value, "candidates").value.JArray? {
      return None;
    }
    var candidates := Get(root.value, "candidates").value.elems;
    var i := 0;
    while i < |candidates|
      invariant 0 <= i <= |candidates|
      invariant FirstNonBlank(AllTexts(candidates[..i])) == None
    {
      var parts := PartsOf(candidates[i]);
      ghost var texts := CandidateTexts(candidates[i]);
      if parts.JArray? {
        var j := 0;
        while j < |parts.elems|
          invariant 0 <= j <= |parts.elems|
          invariant FirstNonBlank(texts[..j]) == None
        {
          var t := PartText(parts.elems[j]);
          assert t == texts[j];
          if t.Some? && !IsBlank(t.value) {
            ExtractFound(candidates, i, j);
            return t;
          }
          FirstNonBlankAppend(texts[..j], [t]);
          assert texts[..j + 1] == texts[..j] + [t];
          j := j + 1;
        }
        assert texts[..j] == texts;
      }
      ExtractStep(candidates, i);
      i := i + 1;
    }
    assert candidates[..i] == candidates;
    return None;
  }

  /** How `generate` ends once a request was sent, as the code is written:
      the blank-reply `BusinessException` is thrown inside the `try` and is
      caught again by `catch (Exception)`, which replaces its message. */
  function RespondAsWritten(exchange: Exchange): (r: Result<string, GeminiFailure>)
    ensures r.Ok? ==> !IsBlank(r.value)
    ensures r == Err(CallFailed) <==> exchange.RestClientFailure?
    ensures r == Err(ProcessingFailed) <==> exchange.OtherFailure? || (exchange.Responded? && ExtractedText(exchange.body).None?)
    ensures r.Ok? <==> exchange.Responded? && ExtractedText(exchange.body).Some?
    ensures r != Err(ResponseUnreadable) && r != Err(ApiKeyMissing)
  {
    match exchange
    case RestClientFailure => Err(CallFailed)
    case OtherFailure => Err(ProcessingFailed)
    case Responded(body) =>
      var text := ExtractedText(body);
      if text.None? || IsBlank(text.value) then Err(ProcessingFailed) else Ok(text.value)
  }

  /** How `generate` ends once a request was sent, with the blank-reply
      failure surfacing as the "reply unreadable" failure it raises. */
  function Respond(exchange: Exchange): (r: Result<string, GeminiFailure>)
    ensures r.Ok? ==> !IsBlank(r.value)
    ensures r == Err(CallFailed) <==> exchange.RestClientFailure?
    ensures r == Err(ProcessingFailed) <==> exchange.OtherFailure?
    ensures r == Err(ResponseUnreadable) <==> exchange.Responded? && ExtractedText(exchange.body).None?
    ensures r.Ok? <==> exchange.Responded? && ExtractedText(exchange.body).Some?
    ensures r.Ok? ==> r.value == ExtractedText(exchange.body).value
  {
    match exchange
    case RestClientFailure => Err(CallFailed)
    case OtherFailure => Err(ProcessingFailed)
    case Responded(body) =>
      var text := ExtractedText(body);
      if text.None? || IsBlank(text.value) then Err(ResponseUnreadable) else Ok(text.value)
  }

  /** A reply without candidates: as written it is reported as a processing
      error, indistinguishable from a serialisation failure. */
  lemma BlankReplyMessage()
    ensures RespondAsWritten(Responded(Some(JObject(map[])))) == Err(ProcessingFailed)
    ensures RespondAsWritten(OtherFailure) == Err(ProcessingFailed)
    ensures Respond(Responded(Some(JObject(map[])))) == Err(ResponseUnreadable)
  {
  }

  /** The corrected reading differs from the code only in that message. */
  lemma RespondAgreesExceptMessage(exchange: Exchange)
    ensures RespondAsWritten(exchange).Ok? <==> Respond(exchange).Ok?
    ensures Respond(exchange).Ok? ==> RespondAsWritten(exchange) == Respond(exchange)
    ensures Respond(exchange) != Err(ResponseUnreadable) ==> RespondAsWritten(exchange) == Respond(exchange)
  {
  }

  /** The gateway: a configured endpoint and key, the transport standing for
      the HTTP call, and the log of the requests actually sent. */
  class GeminiClient {
    const url: string
    const apiKey: Option<string>
    const transport: (string, Prompt) -> Exchange
    var sent: seq<(string, Prompt)>

    constructor (url: string, apiKey: Option<string>, transport: (string, Prompt) -> Exchange)
      ensures this.url == url && this.apiKey == apiKey && this.transport == transport
      ensures sent == []
    {
      this.url := url;
      this.apiKey := apiKey;
      this.transport := transport;
      sent := [];
    }

    /** What `generate(prompt)` returns or throws. */
    function Outcome(prompt: Prompt): (r: Result<string, GeminiFailure>)
      ensures r.Ok? ==> !IsBlank(r.value)
      ensures !KeyConfigured(apiKey) <==> r == Err(ApiKeyMissing)
    {
      if !KeyConfigured(apiKey) then Err(ApiKeyMissing)
      else Respond(transport(BuildUrl(url, apiKey.value), prompt))
    }

    /** The request `generate(prompt)` sends, when it sends one. */
    function Request(prompt: Prompt): (string, Prompt)
      requires KeyConfigured(apiKey)
    {
      (BuildUrl(url, apiKey.value), prompt)
    }

    /** `generate`: a missing or blank key fails before any request is built;
        otherwise exactly one request is sent, and only a non-blank text is
        ever returned. */
    method Generate(prompt: Prompt) returns (r: Result<string, GeminiFailure>)
      modifies this`sent
      ensures r == Outcome(prompt)
      ensures sent == if KeyConfigured(apiKey) then old(sent) + [Request(prompt)] else old(sent)
    {
      if apiKey.None? || IsBlank(apiKey.value) {
        return Err(ApiKeyMissing);
      }
      var target := BuildUrl(url, apiKey.value);
      sent := sent + [(target, prompt)];
      var exchange := transport(target, prompt);
      match exchange {
        case RestClientFailure =>
          r := Err(CallFailed);
        case OtherFailure =>
          r := Err(ProcessingFailed);
        case Responded(body) =>
          var text := ExtractText(body);
          if text.None? || IsBlank(text.value) {
            r := Err(ResponseUnreadable);
          } else {
            r := Ok(text.value);
          }
      }
    }
  }
}

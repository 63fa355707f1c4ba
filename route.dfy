/**
 * `POST /api/generate-emoji`: validate the body, read the icon, build the
 * prompt, call the model, and turn its reply, or any failure, into one JSON
 * response. The file system is a map from paths (relative to the working
 * directory) to file text and the model's answer is an input; the outcome
 * records, in order, the file read and the model call that happened.
 */
module Route {
  import opened Wrappers
  import opened Text
  import opened Json
  import opened RequestSchema
  import opened Assets
  import opened Prompt
  import opened Messages

  /** The `details` of an error response: the failing fields of the body, or a text. */
  datatype Details = NoDetails | FieldIssues(fields: set<Field>) | Detail(text: string)

  /** `{ svg }` or `{ error, details? }`. */
  datatype ResponseBody = SvgBody(svg: string) | ErrorBody(error: string, details: Details)

  datatype Response = Response(status: nat, body: ResponseBody)

  /** An effect on the outside world. */
  datatype Event = ReadFile(path: string) | CallModel(request: MessageRequest)

  datatype Outcome = Outcome(response: Response, trace: seq<Event>)

  const InvalidBodyError: string := "Invalid request body"
  const ReadFailedError: string := "Failed to read SVG file"
  const UnexpectedFormatError: string := "Unexpected response format from Claude API"
  const NoContentError: string := "No content in Claude API response"
  const GenerationFailedError: string := "Failed to generate emoji"

  /** The response of the outer `catch`. */
  const GenerationFailed: Response := Response(500, ErrorBody(GenerationFailedError, NoDetails))

  /** The `details` of the 404 response. */
  function NotFoundDetail(key: string): string
  {
    "SVG key: " + key
  }

  /** The response for a reply the model did give. */
  function ReplyResponse(e: Extraction): (r: Response)
    ensures r.status == 200 <==> e.Extracted?
    ensures e.Extracted? ==> r.body == SvgBody(e.svg)
    ensures e == NoContent ==> r == Response(500, ErrorBody(NoContentError, NoDetails))
    ensures e == UnexpectedFormat ==> r == Response(500, ErrorBody(UnexpectedFormatError, NoDetails))
  {
    match e
    case Extracted(svg) => Response(200, SvgBody(svg))
    case NoContent => Response(500, ErrorBody(NoContentError, NoDetails))
    case UnexpectedFormat => Response(500, ErrorBody(UnexpectedFormatError, NoDetails))
  }

  /** The trace of a run: the file read comes first, and there is at most one
      read and one model call (no retry). */
  predicate OrderedTrace(trace: seq<Event>)
  {
    |trace| <= 2 && forall i :: 0 <= i < |trace| ==> (trace[i].ReadFile? <==> i == 0)
  }

  /** The handler. It always answers: every failure becomes a response. */
  function Handle(body: RequestBody, files: map<string, string>, reply: Reply): (out: Outcome)
    ensures out.response.status in {200, 400, 404, 500}
    ensures out.response.status == 200 <==> out.response.body.SvgBody?
    ensures OrderedTrace(out.trace)
    ensures |out.trace| > 0 ==> body.Parsed? && Validate(body.value).Accepted?
    ensures |out.trace| > 1 ==> out.trace[0].path in files
    ensures out.response.status == 200 ==> |out.trace| == 2 && reply.Replied?
  {
    match body
    case Unparseable => Outcome(GenerationFailed, [])
    case Parsed(value) =>
      match Validate(value)
      case Rejected(issues) =>
        Outcome(Response(400, ErrorBody(InvalidBodyError, FieldIssues(issues))), [])
      case Accepted(request) =>
        var path := AssetPath(request.svgKey);
        if path !in files then
          Outcome(Response(404, ErrorBody(ReadFailedError, Detail(NotFoundDetail(request.svgKey)))), [ReadFile(path)])
        else
          var call := CreateRequest(BuildPrompt(files[path], request.description));
          var trace := [ReadFile(path), CallModel(call)];
          match reply
          case CallFailed => Outcome(GenerationFailed, trace)
          case Replied(content) => Outcome(ReplyResponse(ExtractSvg(content)), trace)
  }

  /** A body that does not parse as JSON is a generic 500, not a 400, and
      nothing is read or called. */
  lemma UnparseableBodyFails(files: map<string, string>, reply: Reply)
    ensures Handle(Unparseable, files, reply) == Outcome(Response(500, ErrorBody(GenerationFailedError, NoDetails)), [])
  {
  }

  /** A body that fails the schema is a 400 naming every failing field, and
      nothing is read or called. */
  lemma InvalidBodyRejected(value: Value, files: map<string, string>, reply: Reply)
    requires Validate(value).Rejected?
    ensures Handle(Parsed(value), files, reply).trace == []
    ensures Handle(Parsed(value), files, reply).response
      == Response(400, ErrorBody(InvalidBodyError, FieldIssues(Validate(value).issues)))
    ensures value.Object? ==>
      && (SvgKey in Validate(value).issues <==> !KeyMeetsSchema(value.fields))
      && (Description in Validate(value).issues <==> !DescriptionMeetsSchema(value.fields))
  {
  }

  /** A missing icon is a 404 whose details hold the key and no `.`, so not
      the resolved path; the model is not called. */
  lemma MissingAssetNotFound(value: Value, files: map<string, string>, reply: Reply)
    requires Validate(value).Accepted?
    requires AssetPath(Validate(value).request.svgKey) !in files
    ensures var key := Validate(value).request.svgKey;
      && Handle(Parsed(value), files, reply).response
        == Response(404, ErrorBody(ReadFailedError, Detail("SVG key: " + key)))
      && Handle(Parsed(value), files, reply).trace == [ReadFile("public/assets/" + key + ".svg")]
      && '.' !in NotFoundDetail(key)
  {
    var key := Validate(value).request.svgKey;
    RegexIsAssetKey(key);
    AssetPathOfKey(key);
    NotFoundDetailHidesPath(key);
  }

  /** The 404 details have no `.`, while the resolved path ends in `.svg`. */
  lemma NotFoundDetailHidesPath(key: string)
    requires IsAssetKey(key)
    ensures '.' !in NotFoundDetail(key)
  {
    KeyCharset(key);
    var detail := NotFoundDetail(key);
    assert detail == "SVG key: " + key;
    assert forall x :: x in detail ==> x in "SVG key: " || x in key;
  }

  /** With the icon present, the model is called once, with one user message:
      the template filled with the file's text and the description exactly as
      received. */
  lemma ModelCalledWithPrompt(value: Value, files: map<string, string>, reply: Reply)
    requires Validate(value).Accepted?
    requires AssetPath(Validate(value).request.svgKey) in files
    ensures var request := Validate(value).request;
      var path := "public/assets/" + request.svgKey + ".svg";
      && path in files
      && value.fields["description"] == Str(request.description)
      && Handle(Parsed(value), files, reply).trace
        == [ReadFile(path), CallModel(MessageRequest(ModelName, MaxTokens, [Message("user", BuildPrompt(files[path], request.description))]))]
      && ParsePrompt(BuildPrompt(files[path], request.description), |files[path]|)
        == Some((files[path], request.description))
  {
    var request := Validate(value).request;
    RegexIsAssetKey(request.svgKey);
    AssetPathOfKey(request.svgKey);
    ParseBuild(files["public/assets/" + request.svgKey + ".svg"], request.description);
  }

  /** A reply whose first block is text gives 200 with exactly that text. */
  lemma FirstTextBlockReturned(value: Value, files: map<string, string>, text: string, rest: seq<ContentBlock>)
    requires Validate(value).Accepted?
    requires AssetPath(Validate(value).request.svgKey) in files
    ensures Handle(Parsed(value), files, Replied([TextBlock(text)] + rest)).response == Response(200, SvgBody(text))
  {
  }

  /** Every way the model call can go wrong ends in a 500 with its own message. */
  lemma UpstreamFailures(value: Value, files: map<string, string>, rest: seq<ContentBlock>)
    requires Validate(value).Accepted?
    requires AssetPath(Validate(value).request.svgKey) in files
    ensures Handle(Parsed(value), files, CallFailed).response == GenerationFailed
    ensures Handle(Parsed(value), files, Replied([])).response
      == Response(500, ErrorBody(NoContentError, NoDetails))
    ensures Handle(Parsed(value), files, Replied([OtherBlock] + rest)).response
      == Response(500, ErrorBody(UnexpectedFormatError, NoDetails))
  {
  }

  /** With no model call in the trace, the reply cannot affect the outcome. */
  lemma ReplyUnusedWithoutCall(body: RequestBody, files: map<string, string>, reply1: Reply, reply2: Reply)
    requires |Handle(body, files, reply1).trace| < 2
    ensures Handle(body, files, reply1) == Handle(body, files, reply2)
  {
  }

  /** The file system matters only through the one path in the trace: with
      no read it does not matter at all. */
  lemma FilesUsedOnlyAtAssetPath(body: RequestBody, files1: map<string, string>, files2: map<string, string>, reply: Reply)
    requires var trace := Handle(body, files1, reply).trace;
      |trace| == 0 || (var p := trace[0].path; (p in files1 <==> p in files2) && (p in files1 ==> files1[p] == files2[p]))
    ensures Handle(body, files1, reply) == Handle(body, files2, reply)
  {
  }

  /** `activities/1f3a0` is an accepted key. */
  lemma ExampleKeyAccepted(key: string)
    requires key == "activities/1f3a0"
    ensures IsAssetKey(key) && Category(key) == "activities" && Id(key) == "1f3a0"
  {
    assert key[10] == '/' && forall k :: 0 <= k < 10 ==> key[k] != '/';
    assert IndexOf(key, '/') == 10;
    assert AllLetters(key[..10]);
    assert AllIdChars(key[11..]);
  }

  /** The worked example's body passes the schema. */
  lemma ExampleBodyAccepted(key: string, description: string)
    requires key == "activities/1f3a0" && description == "make it blue"
    ensures Validate(Object(map["svgKey" := Str(key), "description" := Str(description)]))
      == Accepted(Request(key, description))
  {
    ExampleKeyAccepted(key);
    assert forall i :: 0 <= i < |description| ==> InBmp(description[i]);
    Utf16LengthBounds(description);
  }

  /** The worked example: `activities/1f3a0` made blue gives 200 with the
      model's markup. */
  lemma MakeItBlue(key: string, description: string, markup: string, svg: string)
    requires key == "activities/1f3a0" && description == "make it blue"
    requires markup == "<svg .../>" && svg == "<svg fill=\"blue\" .../>"
    ensures var body := Parsed(Object(map["svgKey" := Str(key), "description" := Str(description)]));
      var files := map["public/assets/" + key + ".svg" := markup];
      Handle(body, files, Replied([TextBlock(svg)])).response == Response(200, SvgBody(svg))
  {
    var value := Object(map["svgKey" := Str(key), "description" := Str(description)]);
    var files := map["public/assets/" + key + ".svg" := markup];
    ExampleBodyAccepted(key, description);
    ExampleKeyAccepted(key);
    AssetPathOfKey(key);
    FirstTextBlockReturned(value, files, svg, []);
    assert [TextBlock(svg)] + [] == [TextBlock(svg)];
  }

  /** The worked example: a key with a space is a 400 flagging `svgKey`,
      whatever the files and the reply. */
  lemma BadKeyRejected(key: string, description: string, files: map<string, string>, reply: Reply)
    requires key == "bad key" && description == "x"
    ensures var out := Handle(Parsed(Object(map["svgKey" := Str(key), "description" := Str(description)])), files, reply);
      && out.response.status == 400
      && out.response.body.ErrorBody? && out.response.body.details.FieldIssues?
      && SvgKey in out.response.body.details.fields
      && out.trace == []
  {
    assert '/' !in key;
    assert IndexOf(key, '/') == |key|;
    RegexIsAssetKey(key);
  }
}

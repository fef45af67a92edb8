/** The endpoint-to-document builder of the ingestion script: every operation
    under an OpenAPI specification's `paths` becomes one Document, whose text
    is what gets embedded and whose metadata is used for display. */
module Ingest {
  import opened Dicts
  import opened Json
  import opened Text
  import opened Documents
  import opened Seqs

  // ---------------------------------------------------------------------
  // The inputs the builder is modelled on: dicts wherever the code calls
  // .get, and strings (or booleans) in the fields it renders.
  // ---------------------------------------------------------------------

  predicate ValidParameter(p: Json)
  {
    && IsDict(p)
    && TextOrAbsent(p.members, "name")
    && TextOrAbsent(p.members, "in")
    && FlagOrAbsent(p.members, "required")
    && TextOrAbsent(p.members, "description")
  }

  /** A request body is a dict with a string description, if any, and its
      `content`, if any, is a dict or a value that fails the truth test
      (which writes no content-types line). */
  predicate ValidRequestBody(b: Json)
  {
    && IsDict(b)
    && TextOrAbsent(b.members, "description")
    && match Get(b.members, "content")
       case None => true
       case Some(c) => IsDict(c) || Falsy(c)
  }

  predicate ValidResponse(r: Json)
  {
    IsDict(r) && TextOrAbsent(r.members, "description")
  }

  predicate ValidOperation(op: Json)
  {
    IsDict(op) && OperationTexts(op) && OperationParameters(op) && OperationRequestBody(op) && OperationResponses(op)
  }

  /** The rendered text fields are strings when present. */
  predicate OperationTexts(op: Json)
    requires op.Obj?
  {
    && TextOrAbsent(op.members, "summary")
    && TextOrAbsent(op.members, "description")
    && TextOrAbsent(op.members, "operationId")
  }

  /** `parameters`, when present, is a list of parameter objects, or an
      empty string or dict, which the loop iterates over without a step. */
  predicate OperationParameters(op: Json)
    requires op.Obj?
  {
    match Get(op.members, "parameters")
    case None => true
    case Some(ps) =>
      || (ps.Arr? && forall i :: 0 <= i < |ps.items| ==> ValidParameter(ps.items[i]))
      || ps == Str("")
      || ps == Obj([])
  }

  /** `requestBody`, when present, is a request body object. */
  predicate OperationRequestBody(op: Json)
    requires op.Obj?
  {
    match Get(op.members, "requestBody")
    case None => true
    case Some(b) => ValidRequestBody(b)
  }

  /** `responses`, when present, is a dict of response objects. */
  predicate OperationResponses(op: Json)
    requires op.Obj?
  {
    match Get(op.members, "responses")
    case None => true
    case Some(rs) => IsDict(rs) && forall i :: 0 <= i < |rs.members| ==> ValidResponse(rs.members[i].1)
  }

  predicate ValidInfo(info: Json)
  {
    IsDict(info) && TextOrAbsent(info.members, "title") && TextOrAbsent(info.members, "version")
  }

  // ---------------------------------------------------------------------
  // What create_endpoint_document extracts from an operation.
  // ---------------------------------------------------------------------

  /** One entry of the `parameters` list the builder collects. */
  datatype Parameter = Parameter(name: string, location: string, required: bool, description: string, schema: Json)

  /** The `request_body` dict, when the operation has a requestBody. */
  datatype RequestBody = RequestBody(description: string, required: Json, content: Json)

  /** One value of the `responses` dict, keyed by status code. */
  datatype Response = Response(description: string, content: Json)

  /** The parameter record built from one source parameter; an absent
      `required` counts as false. */
  function ParameterOf(p: Json): (r: Parameter)
    requires ValidParameter(p)
    ensures r.required <==> Get(p.members, "required") == Some(Bool(true))
  {
    Parameter(
      GetText(p.members, "name", ""),
      GetText(p.members, "in", ""),
      GetFlag(p.members, "required"),
      GetText(p.members, "description", ""),
      GetOr(p.members, "schema", Obj([])))
  }

  /** The operation's own `parameters` list, or none. */
  function SourceParameters(op: Json): seq<Json>
    requires op.Obj?
  {
    match Get(op.members, "parameters")
    case Some(v) => if v.Arr? then v.items else []
    case None => []
  }

  /** The parameter records built from a list of source parameters, in order. */
  function ParameterRecords(items: seq<Json>): (ps: seq<Parameter>)
    requires forall i :: 0 <= i < |items| ==> ValidParameter(items[i])
    ensures |ps| == |items| && forall i :: 0 <= i < |items| ==> ps[i] == ParameterOf(items[i])
  {
    MapSeq(ParameterOf, items)
  }

  function ParametersOf(op: Json): seq<Parameter>
    requires ValidOperation(op)
  {
    ParameterRecords(SourceParameters(op))
  }

  /** The request_body dict: present exactly when the operation has a
      `requestBody` key, with its description and content or the defaults
      "" and {}. */
  function RequestBodyOf(op: Json): (r: Option<RequestBody>)
    requires ValidOperation(op)
    ensures r.Some? <==> Has(op.members, "requestBody")
    ensures r.Some? ==>
              var b := Get(op.members, "requestBody").value;
              && (Has(b.members, "description") ==> Get(b.members, "description") == Some(Str(r.value.description)))
              && (!Has(b.members, "description") ==> r.value.description == "")
              && (Has(b.members, "content") ==> Get(b.members, "content") == Some(r.value.content))
              && (!Has(b.members, "content") ==> r.value.content == Obj([]))
  {
    match Get(op.members, "requestBody")
    case Some(b) =>
      Some(RequestBody(
        GetText(b.members, "description", ""),
        GetOr(b.members, "required", Bool(false)),
        GetOr(b.members, "content", Obj([]))))
    case None => None
  }

  function ResponseOf(r: Json): Response
    requires ValidResponse(r)
  {
    Response(GetText(r.members, "description", ""), GetOr(r.members, "content", Obj([])))
  }

  /** The operation's own `responses` dict, or an empty one. */
  function SourceResponses(op: Json): seq<(string, Json)>
    requires op.Obj?
  {
    match Get(op.members, "responses")
    case Some(v) => if v.Obj? then v.members else []
    case None => []
  }

  /** The response records built from a source responses dict, in its order. */
  function ResponseRecords(rs: seq<(string, Json)>): (records: seq<(string, Response)>)
    requires forall i :: 0 <= i < |rs| ==> ValidResponse(rs[i].1)
    ensures |records| == |rs| && forall i :: 0 <= i < |rs| ==> records[i] == (rs[i].0, ResponseOf(rs[i].1))
  {
    MapSeq(ResponseEntry, rs)
  }

  /** One entry of the `responses` dict: the status code and its record. */
  function ResponseEntry(entry: (string, Json)): (string, Response)
    requires ValidResponse(entry.1)
  {
    (entry.0, ResponseOf(entry.1))
  }

  function ResponsesOf(op: Json): seq<(string, Response)>
    requires ValidOperation(op)
  {
    ResponseRecords(SourceResponses(op))
  }

  /** operationId when the operation has one, otherwise method_path with the
      method as given (lower case). */
  function OperationIdOf(path: string, httpMethod: string, op: Json): (id: string)
    requires ValidOperation(op)
    ensures Has(op.members, "operationId") ==> Get(op.members, "operationId") == Some(Str(id))
    ensures !Has(op.members, "operationId") ==> id == httpMethod + "_" + path
  {
    GetText(op.members, "operationId", httpMethod + "_" + path)
  }

  // ---------------------------------------------------------------------
  // The rendered text: a list of parts joined with newlines.
  // ---------------------------------------------------------------------

  function HeaderParts(path: string, httpMethod: string, operationId: string): seq<string>
  {
    ["API Endpoint: " + Upper(httpMethod) + " " + path, "Operation ID: " + operationId, ""]
  }

  /** A labelled line for a field that is shown only when non-empty. */
  function OptionalPart(heading: string, value: string): seq<string>
  {
    if value == "" then [] else [heading + value]
  }

  function RequiredWord(required: bool): string
  {
    if required then "required" else "optional"
  }

  function ParameterLine(p: Parameter): string
  {
    "  - " + p.name + " (" + p.location + ", " + RequiredWord(p.required) + "): " + p.description
  }

  function ParameterBlock(ps: seq<Parameter>): seq<string>
  {
    if ps == [] then []
    else ["\nParameters:"] + ParameterLines(ps)
  }

  function ParameterLines(ps: seq<Parameter>): seq<string>
  {
    seq(|ps|, i requires 0 <= i < |ps| => ParameterLine(ps[i]))
  }

  /** The keys of a request body's content map, which name its media types. */
  function ContentTypes(content: Json): seq<string>
  {
    match content
    case Obj(m) => Keys(m)
    case _ => []
  }

  function RequestBodyBlock(b: Option<RequestBody>): seq<string>
  {
    match b
    case None => []
    case Some(rb) => ["\nRequest Body:"] + RequestBodyLines(rb)
  }

  /** The content-types line is written exactly when the content passes
      Python's truth test. */
  lemma ContentTypesShown(content: Json)
    requires IsDict(content) || Falsy(content)
    ensures ContentTypes(content) != [] <==> !Falsy(content)
  {
  }

  function RequestBodyLines(rb: RequestBody): seq<string>
  {
    ["  " + rb.description]
    + (if ContentTypes(rb.content) == [] then []
       else ["  Content types: " + Join(", ", ContentTypes(rb.content))])
  }

  function ResponseLine(statusCode: string, r: Response): string
  {
    "  " + statusCode + ": " + r.description
  }

  function ResponsesBlock(rs: seq<(string, Response)>): seq<string>
  {
    if rs == [] then []
    else ["\nResponses:"] + ResponseLines(rs)
  }

  function ResponseLines(rs: seq<(string, Response)>): seq<string>
  {
    seq(|rs|, i requires 0 <= i < |rs| => ResponseLine(rs[i].0, rs[i].1))
  }

  /** The parts of the text, from the values extracted from an operation. */
  function RenderParts(
    path: string, httpMethod: string, operationId: string, summary: string, description: string,
    ps: seq<Parameter>, body: Option<RequestBody>, rs: seq<(string, Response)>): seq<string>
  {
    HeaderParts(path, httpMethod, operationId)
    + OptionalPart("Summary: ", summary)
    + OptionalPart("Description: ", description)
    + ParameterBlock(ps)
    + RequestBodyBlock(body)
    + ResponsesBlock(rs)
  }

  function ContentParts(path: string, httpMethod: string, op: Json): seq<string>
    requires ValidOperation(op)
  {
    RenderParts(
      path, httpMethod, OperationIdOf(path, httpMethod, op),
      GetText(op.members, "summary", ""), GetText(op.members, "description", ""),
      ParametersOf(op), RequestBodyOf(op), ResponsesOf(op))
  }

  function MetadataOf(path: string, httpMethod: string, op: Json, info: Json): seq<(string, Json)>
    requires ValidOperation(op) && ValidInfo(info)
  {
    [ ("path", Str(path)),
      ("method", Str(Upper(httpMethod))),
      ("operation_id", Str(OperationIdOf(path, httpMethod, op))),
      ("api_title", Str(GetText(info.members, "title", ""))),
      ("api_version", Str(GetText(info.members, "version", ""))),
      ("tags", GetOr(op.members, "tags", Arr([]))),
      ("source", Str("openapi_spec")) ]
  }

  /** The document create_endpoint_document returns. */
  function EndpointDocument(path: string, httpMethod: string, op: Json, info: Json): (doc: Document)
    requires ValidOperation(op) && ValidInfo(info)
    ensures doc.metadata == MetadataOf(path, httpMethod, op, info)
  {
    Document(Join("\n", ContentParts(path, httpMethod, op)), MetadataOf(path, httpMethod, op, info))
  }

  /** Collects the `parameters` list when the operation has one. */
  method CollectParameters(operation: Json) returns (parameters: seq<Parameter>)
    requires ValidOperation(operation)
    ensures parameters == ParametersOf(operation)
  {
    parameters := [];
    var op := operation.members;
    if Has(op, "parameters") {
      var source := Get(op, "parameters").value;
      if source.Arr? {
        parameters := CollectParameterRecords(source.items);
      }
    }
  }

  /** The loop that builds one parameter record per source parameter. */
  method CollectParameterRecords(items: seq<Json>) returns (parameters: seq<Parameter>)
    requires forall i :: 0 <= i < |items| ==> ValidParameter(items[i])
    ensures parameters == ParameterRecords(items)
  {
    parameters := [];
    for i := 0 to |items|
      invariant parameters == ParameterRecords(items[..i])
    {
      ParameterRecordsSnoc(items, i);
      parameters := parameters + [ParameterOf(items[i])];
    }
    assert items[..|items|] == items;
  }

  /** Building the records of one more source parameter appends its record. */
  lemma ParameterRecordsSnoc(items: seq<Json>, i: nat)
    requires forall k :: 0 <= k < |items| ==> ValidParameter(items[k])
    requires i < |items|
    ensures ParameterRecords(items[..i + 1]) == ParameterRecords(items[..i]) + [ParameterOf(items[i])]
  {
    TakeSnoc(items, i);
    assert forall k :: 0 <= k < i ==> items[..i][k] == items[k];
    MapSeqSnoc(ParameterOf, items[..i], items[i]);
  }

  /** Fills the `responses` dict when the operation has responses. */
  method CollectResponses(operation: Json) returns (responses: seq<(string, Response)>)
    requires ValidOperation(operation)
    ensures responses == ResponsesOf(operation)
  {
    responses := [];
    var op := operation.members;
    if Has(op, "responses") {
      responses := CollectResponseRecords(Get(op, "responses").value.members);
    }
  }

  /** The loop that fills the `responses` dict, one status code at a time;
      the status codes are distinct, so each assignment adds a new key. */
  method CollectResponseRecords(rs: seq<(string, Json)>) returns (responses: seq<(string, Response)>)
    requires DistinctKeys(rs)
    requires forall i :: 0 <= i < |rs| ==> ValidResponse(rs[i].1)
    ensures responses == ResponseRecords(rs)
  {
    responses := [];
    for i := 0 to |rs|
      invariant responses == ResponseRecords(rs[..i])
    {
      var statusCode := rs[i].0;
      ResponseRecordsSnoc(rs, i);
      responses := Put(responses, statusCode, ResponseOf(rs[i].1));
    }
    assert rs[..|rs|] == rs;
  }

  /** Building the records of one more status code appends its record, under
      a key that is not yet in the dict. */
  lemma ResponseRecordsSnoc(rs: seq<(string, Json)>, i: nat)
    requires DistinctKeys(rs)
    requires forall k :: 0 <= k < |rs| ==> ValidResponse(rs[k].1)
    requires i < |rs|
    ensures rs[i].0 !in Keys(ResponseRecords(rs[..i]))
    ensures ResponseRecords(rs[..i + 1]) == ResponseRecords(rs[..i]) + [(rs[i].0, ResponseOf(rs[i].1))]
  {
    var before := ResponseRecords(rs[..i]);
    forall j | 0 <= j < i
      ensures before[j].0 != rs[i].0
    {
      assert before[j].0 == rs[..i][j].0 == rs[j].0;
    }
    TakeSnoc(rs, i);
    assert forall k :: 0 <= k < i ==> rs[..i][k] == rs[k];
    MapSeqSnoc(ResponseEntry, rs[..i], rs[i]);
  }

  /** Appends a labelled line when its value is non-empty. */
  method AppendOptional(parts: seq<string>, heading: string, value: string) returns (result: seq<string>)
    ensures result == parts + OptionalPart(heading, value)
  {
    result := parts;
    if value != "" {
      result := result + [heading + value];
    }
  }

  /** Appends the parameter block: a header, then one line per parameter. */
  method AppendParameters(parts: seq<string>, parameters: seq<Parameter>) returns (result: seq<string>)
    ensures result == parts + ParameterBlock(parameters)
  {
    result := parts;
    if parameters != [] {
      result := result + ["\nParameters:"];
      ghost var front := parts + ["\nParameters:"];
      AppendNone(front, ParameterLines(parameters[..0]));
      for i := 0 to |parameters|
        invariant result == front + ParameterLines(parameters[..i])
      {
        var param := parameters[i];
        var required := if param.required then "required" else "optional";
        var line := "  - " + param.name + " (" + param.location + ", " + required + "): " + param.description;
        assert required == RequiredWord(param.required);
        ParameterLinesSnoc(parameters, i);
        AppendAssoc(front, ParameterLines(parameters[..i]), [line]);
        result := result + [line];
      }
      assert parameters[..|parameters|] == parameters;
      AppendAssoc(parts, ["\nParameters:"], ParameterLines(parameters));
    }
  }

  lemma ParameterLinesSnoc(ps: seq<Parameter>, i: nat)
    requires i < |ps|
    ensures ParameterLines(ps[..i + 1]) == ParameterLines(ps[..i]) + [ParameterLine(ps[i])]
  {
    var a := ParameterLines(ps[..i + 1]);
    var b := ParameterLines(ps[..i]) + [ParameterLine(ps[i])];
    forall k | 0 <= k < i + 1 ensures a[k] == b[k] {
      assert ps[..i + 1][k] == ps[k];
      if k < i {
        assert ps[..i][k] == ps[k];
      }
    }
  }

  /** Appends the request-body block when there is a request body. */
  method AppendRequestBody(parts: seq<string>, requestBody: Option<RequestBody>) returns (result: seq<string>)
    ensures result == parts + RequestBodyBlock(requestBody)
  {
    result := parts;
    if requestBody.Some? {
      result := result + ["\nRequest Body:"];
      result := result + ["  " + requestBody.value.description];
      var contentTypes := ContentTypes(requestBody.value.content);
      if contentTypes != [] {
        result := result + ["  Content types: " + Join(", ", contentTypes)];
      }
    }
  }

  /** Appends the responses block: a header, then one line per status code. */
  method AppendResponses(parts: seq<string>, responses: seq<(string, Response)>) returns (result: seq<string>)
    ensures result == parts + ResponsesBlock(responses)
  {
    result := parts;
    if responses != [] {
      result := result + ["\nResponses:"];
      ghost var front := parts + ["\nResponses:"];
      AppendNone(front, ResponseLines(responses[..0]));
      for i := 0 to |responses|
        invariant result == front + ResponseLines(responses[..i])
      {
        var statusCode := responses[i].0;
        var response := responses[i].1;
        var line := "  " + statusCode + ": " + response.description;
        ResponseLinesSnoc(responses, i);
        AppendAssoc(front, ResponseLines(responses[..i]), [line]);
        result := result + [line];
      }
      assert responses[..|responses|] == responses;
      AppendAssoc(parts, ["\nResponses:"], ResponseLines(responses));
    }
  }

  lemma ResponseLinesSnoc(rs: seq<(string, Response)>, i: nat)
    requires i < |rs|
    ensures ResponseLines(rs[..i + 1]) == ResponseLines(rs[..i]) + [ResponseLine(rs[i].0, rs[i].1)]
  {
    var a := ResponseLines(rs[..i + 1]);
    var b := ResponseLines(rs[..i]) + [ResponseLine(rs[i].0, rs[i].1)];
    forall k | 0 <= k < i + 1 ensures a[k] == b[k] {
      assert rs[..i + 1][k] == rs[k];
      if k < i {
        assert rs[..i][k] == rs[k];
      }
    }
  }

  /** create_endpoint_document: collects the parameters, request body and
      responses, then appends the parts of the text block by block. */
  method CreateEndpointDocument(path: string, httpMethod: string, operation: Json, specInfo: Json)
    returns (doc: Document)
    requires ValidOperation(operation) && ValidInfo(specInfo)
    ensures doc == EndpointDocument(path, httpMethod, operation, specInfo)
  {
    var op := operation.members;
    var summary := GetText(op, "summary", "");
    var description := GetText(op, "description", "");
    var operationId := GetText(op, "operationId", httpMethod + "_" + path);

    var parameters := CollectParameters(operation);

    var requestBody: Option<RequestBody> := None;
    if Has(op, "requestBody") {
      var reqBody := Get(op, "requestBody").value.members;
      requestBody := Some(RequestBody(
        GetText(reqBody, "description", ""),
        GetOr(reqBody, "required", Bool(false)),
        GetOr(reqBody, "content", Obj([]))));
    }
    assert requestBody == RequestBodyOf(operation);

    var responses := CollectResponses(operation);

    var contentParts := HeaderParts(path, httpMethod, operationId);
    contentParts := AppendOptional(contentParts, "Summary: ", summary);
    contentParts := AppendOptional(contentParts, "Description: ", description);
    contentParts := AppendParameters(contentParts, parameters);
    contentParts := AppendRequestBody(contentParts, requestBody);
    contentParts := AppendResponses(contentParts, responses);

    var content := Join("\n", contentParts);
    var metadata := MetadataOf(path, httpMethod, operation, specInfo);
    doc := Document(content, metadata);
  }

  // ---------------------------------------------------------------------
  // Properties of the rendered text.
  // ---------------------------------------------------------------------

  /** s begins with prefix. */
  predicate StartsWith(s: string, prefix: string)
  {
    |prefix| <= |s| && s[..|prefix|] == prefix
  }

  /** Some part of the list begins with prefix. */
  predicate SomePartStartsWith(parts: seq<string>, prefix: string)
  {
    exists i :: 0 <= i < |parts| && StartsWith(parts[i], prefix)
  }

  /** A block: empty, or a header followed by lines indented with a space. */
  predicate IsBlock(b: seq<string>, header: string)
  {
    b != [] ==> b[0] == header && forall i :: 1 <= i < |b| ==> |b[i]| > 0 && b[i][0] == ' '
  }

  lemma BlocksAreIndented(ps: seq<Parameter>, body: Option<RequestBody>, rs: seq<(string, Response)>)
    ensures IsBlock(ParameterBlock(ps), "\nParameters:")
    ensures IsBlock(RequestBodyBlock(body), "\nRequest Body:")
    ensures IsBlock(ResponsesBlock(rs), "\nResponses:")
  {
    ParameterBlockIndented(ps);
    RequestBodyBlockIndented(body);
    ResponsesBlockIndented(rs);
  }

  lemma ParameterBlockIndented(ps: seq<Parameter>)
    ensures IsBlock(ParameterBlock(ps), "\nParameters:")
  {
    var pl := ParameterLines(ps);
    forall i | 0 <= i < |pl| ensures |pl[i]| > 0 && pl[i][0] == ' ' {
      IndentedLine("  - ", ParameterLine(ps[i]));
    }
    HeaderThenIndented("\nParameters:", pl);
  }

  lemma RequestBodyBlockIndented(body: Option<RequestBody>)
    ensures IsBlock(RequestBodyBlock(body), "\nRequest Body:")
  {
    if body.Some? {
      var bl := RequestBodyLines(body.value);
      IndentedLine("  ", bl[0]);
      if |bl| > 1 {
        IndentedLine("  ", bl[1]);
      }
      HeaderThenIndented("\nRequest Body:", bl);
    }
  }

  lemma ResponsesBlockIndented(rs: seq<(string, Response)>)
    ensures IsBlock(ResponsesBlock(rs), "\nResponses:")
  {
    var rl := ResponseLines(rs);
    forall i | 0 <= i < |rl| ensures |rl[i]| > 0 && rl[i][0] == ' ' {
      IndentedLine("  ", ResponseLine(rs[i].0, rs[i].1));
    }
    HeaderThenIndented("\nResponses:", rl);
  }

  /** A line built on an indentation prefix begins with a space. */
  lemma IndentedLine(indent: string, line: string)
    requires |indent| > 0 && indent[0] == ' ' && StartsWith(line, indent)
    ensures |line| > 0 && line[0] == ' '
  {
    assert line[..|indent|][0] == line[0];
  }

  lemma HeaderThenIndented(h: string, lines: seq<string>)
    requires forall i :: 0 <= i < |lines| ==> |lines[i]| > 0 && lines[i][0] == ' '
    ensures IsBlock([h] + lines, h)
  {
    var b := [h] + lines;
    forall i | 1 <= i < |b| ensures |b[i]| > 0 && b[i][0] == ' ' {
      assert b[i] == lines[i - 1];
    }
  }

  /** A line that begins with a newline occurs in a block once if it is the
      block's header and the block is there, and not at all otherwise. */
  lemma {:induction false} BlockCount(b: seq<string>, header: string, x: string)
    requires IsBlock(b, header)
    requires |x| > 0 && x[0] == '\n'
    ensures multiset(b)[x] == if b != [] && x == header then 1 else 0
  {
    if b != [] {
      assert b == [b[0]] + b[1..];
      assert x !in b[1..];
    }
  }

  /** A line that begins with a newline does not occur in a list none of
      whose parts begins with one. */
  lemma NoLeadCount(parts: seq<string>, x: string)
    requires NoNewlineLeads(parts)
    requires |x| > 0 && x[0] == '\n'
    ensures multiset(parts)[x] == 0
  {
    assert x !in parts;
  }

  /** The count of a newline-led line in a text made of an opening without
      newline-led parts followed by the three blocks. */
  lemma HeaderCount(opening: seq<string>, pb: seq<string>, bb: seq<string>, rb: seq<string>, x: string)
    requires NoNewlineLeads(opening)
    requires IsBlock(pb, "\nParameters:") && IsBlock(bb, "\nRequest Body:") && IsBlock(rb, "\nResponses:")
    requires |x| > 0 && x[0] == '\n'
    ensures multiset(opening + pb + bb + rb)[x]
         == (if pb != [] && x == "\nParameters:" then 1 else 0)
            + (if bb != [] && x == "\nRequest Body:" then 1 else 0)
            + (if rb != [] && x == "\nResponses:" then 1 else 0)
  {
    NoLeadCount(opening, x);
    BlockCount(pb, "\nParameters:", x);
    BlockCount(bb, "\nRequest Body:", x);
    BlockCount(rb, "\nResponses:", x);
    assert multiset(opening + pb + bb + rb) == multiset(opening) + multiset(pb) + multiset(bb) + multiset(rb);
  }

  /** The part counts of the three headers in a text made of an opening
      without newline-led parts followed by the three blocks. */
  lemma HeaderCounts(opening: seq<string>, pb: seq<string>, bb: seq<string>, rb: seq<string>)
    requires NoNewlineLeads(opening)
    requires IsBlock(pb, "\nParameters:") && IsBlock(bb, "\nRequest Body:") && IsBlock(rb, "\nResponses:")
    ensures multiset(opening + pb + bb + rb)["\nParameters:"] == if pb == [] then 0 else 1
    ensures multiset(opening + pb + bb + rb)["\nRequest Body:"] == if bb == [] then 0 else 1
    ensures multiset(opening + pb + bb + rb)["\nResponses:"] == if rb == [] then 0 else 1
  {
    HeaderCount(opening, pb, bb, rb, "\nParameters:");
    HeaderCount(opening, pb, bb, rb, "\nRequest Body:");
    HeaderCount(opening, pb, bb, rb, "\nResponses:");
  }

  /** The opening of the text: the endpoint line, the operation-id line, a
      blank line, then the summary and description lines when non-empty. */
  function Opening(path: string, httpMethod: string, op: Json): seq<string>
    requires ValidOperation(op)
  {
    HeaderParts(path, httpMethod, OperationIdOf(path, httpMethod, op))
    + OptionalPart("Summary: ", GetText(op.members, "summary", ""))
    + OptionalPart("Description: ", GetText(op.members, "description", ""))
  }

  /** The three blocks that follow the opening. */
  function Blocks(op: Json): seq<string>
    requires ValidOperation(op)
  {
    ParameterBlock(ParametersOf(op)) + RequestBodyBlock(RequestBodyOf(op)) + ResponsesBlock(ResponsesOf(op))
  }

  /** No part of the list begins with a newline. */
  predicate NoNewlineLeads(parts: seq<string>)
  {
    forall i :: 0 <= i < |parts| ==> parts[i] == "" || parts[i][0] != '\n'
  }

  /** No part of the opening begins with a newline. */
  lemma OpeningLeads(path: string, httpMethod: string, op: Json)
    requires ValidOperation(op)
    ensures NoNewlineLeads(Opening(path, httpMethod, op))
  {
    var h := HeaderParts(path, httpMethod, OperationIdOf(path, httpMethod, op));
    var sp := OptionalPart("Summary: ", GetText(op.members, "summary", ""));
    var dp := OptionalPart("Description: ", GetText(op.members, "description", ""));
    HeaderLeads(path, httpMethod, OperationIdOf(path, httpMethod, op));
    OptionalLeads("Summary: ", GetText(op.members, "summary", ""));
    OptionalLeads("Description: ", GetText(op.members, "description", ""));
    LeadsOfThree(h, sp, dp);
  }

  lemma LeadsOfThree(a: seq<string>, b: seq<string>, c: seq<string>)
    requires NoNewlineLeads(a) && NoNewlineLeads(b) && NoNewlineLeads(c)
    ensures NoNewlineLeads(a + b + c)
  {
    var abc := a + b + c;
    forall i | 0 <= i < |abc| ensures abc[i] == "" || abc[i][0] != '\n' {
      if i < |a| {
        assert abc[i] == a[i];
      } else if i < |a| + |b| {
        assert abc[i] == b[i - |a|];
      } else {
        assert abc[i] == c[i - |a| - |b|];
      }
    }
  }

  lemma HeaderLeads(path: string, httpMethod: string, operationId: string)
    ensures NoNewlineLeads(HeaderParts(path, httpMethod, operationId))
  {
    var h := HeaderParts(path, httpMethod, operationId);
    assert h[0] == "API Endpoint: " + (Upper(httpMethod) + " " + path);
    assert h[1] == "Operation ID: " + operationId;
  }

  lemma OptionalLeads(heading: string, value: string)
    requires |heading| > 0 && heading[0] != '\n'
    ensures NoNewlineLeads(OptionalPart(heading, value))
  {
  }

  /** The text is its opening followed by the three blocks. */
  lemma ContentPartsSplit(path: string, httpMethod: string, op: Json)
    requires ValidOperation(op)
    ensures ContentParts(path, httpMethod, op) == Opening(path, httpMethod, op) + Blocks(op)
  {
    RegroupTail(Opening(path, httpMethod, op),
      ParameterBlock(ParametersOf(op)), RequestBodyBlock(RequestBodyOf(op)), ResponsesBlock(ResponsesOf(op)));
  }

  /** Each of the three block headers occurs once when its block is rendered
      and not at all otherwise: parameters when there are any, the request
      body whenever the operation has the key, responses when there are any. */
  lemma BlockHeaders(path: string, httpMethod: string, op: Json)
    requires ValidOperation(op)
    ensures var parts := ContentParts(path, httpMethod, op);
            && multiset(parts)["\nParameters:"] == (if SourceParameters(op) == [] then 0 else 1)
            && multiset(parts)["\nRequest Body:"] == (if Has(op.members, "requestBody") then 1 else 0)
            && multiset(parts)["\nResponses:"] == (if SourceResponses(op) == [] then 0 else 1)
  {
    var opening := Opening(path, httpMethod, op);
    ContentPartsLayout(path, httpMethod, op);
    BlocksAreIndented(ParametersOf(op), RequestBodyOf(op), ResponsesOf(op));
    OpeningLeads(path, httpMethod, op);
    ParameterBlockLength(op);
    RequestBodyMatchesSource(op);
    ResponsesMatchSource(op);
    HeaderCounts(opening, ParameterBlock(ParametersOf(op)), RequestBodyBlock(RequestBodyOf(op)), ResponsesBlock(ResponsesOf(op)));
  }

  /** The parts after the opening all begin with a newline or a space. */
  lemma TailLeads(ps: seq<Parameter>, body: Option<RequestBody>, rs: seq<(string, Response)>)
    ensures var tail := ParameterBlock(ps) + RequestBodyBlock(body) + ResponsesBlock(rs);
            forall i :: 0 <= i < |tail| ==> |tail[i]| > 0 && (tail[i][0] == '\n' || tail[i][0] == ' ')
  {
    var a, b, c := ParameterBlock(ps), RequestBodyBlock(body), ResponsesBlock(rs);
    BlocksAreIndented(ps, body, rs);
    BlockLeadsOf(a, "\nParameters:");
    BlockLeadsOf(b, "\nRequest Body:");
    BlockLeadsOf(c, "\nResponses:");
    BlockLeadsOfThree(a, b, c);
  }

  /** Every part begins with a newline or a space. */
  predicate BlockLeads(parts: seq<string>)
  {
    forall i :: 0 <= i < |parts| ==> |parts[i]| > 0 && (parts[i][0] == '\n' || parts[i][0] == ' ')
  }

  lemma BlockLeadsOf(b: seq<string>, header: string)
    requires IsBlock(b, header) && |header| > 0 && header[0] == '\n'
    ensures BlockLeads(b)
  {
  }

  lemma BlockLeadsOfThree(a: seq<string>, b: seq<string>, c: seq<string>)
    requires BlockLeads(a) && BlockLeads(b) && BlockLeads(c)
    ensures BlockLeads(a + b + c)
  {
    var abc := a + b + c;
    forall i | 0 <= i < |abc| ensures |abc[i]| > 0 && (abc[i][0] == '\n' || abc[i][0] == ' ') {
      if i < |a| {
        assert abc[i] == a[i];
      } else if i < |a| + |b| {
        assert abc[i] == b[i - |a|];
      } else {
        assert abc[i] == c[i - |a| - |b|];
      }
    }
  }

  /** Where "Summary: " and "Description: " parts can occur in a text made
      of three opening parts, the two optional lines and a tail of newline-
      or space-led parts. */
  lemma {:induction false} OptionalLinesPlacement(h: seq<string>, summary: string, description: string, tail: seq<string>)
    requires |h| == 3 && |h[0]| > 0 && h[0][0] == 'A' && |h[1]| > 0 && h[1][0] == 'O' && h[2] == ""
    requires forall i :: 0 <= i < |tail| ==> |tail[i]| > 0 && (tail[i][0] == '\n' || tail[i][0] == ' ')
    ensures var parts := h + OptionalPart("Summary: ", summary) + OptionalPart("Description: ", description) + tail;
            && |parts| >= 3 + (if summary == "" then 0 else 1) + (if description == "" then 0 else 1)
            && (SomePartStartsWith(parts, "Summary: ") <==> summary != "")
            && (SomePartStartsWith(parts, "Description: ") <==> description != "")
            && (summary != "" ==> parts[3] == "Summary: " + summary)
            && (description != "" ==> parts[if summary == "" then 3 else 4] == "Description: " + description)
  {
    var parts := h + OptionalPart("Summary: ", summary) + OptionalPart("Description: ", description) + tail;
    var s := if summary == "" then 0 else 1;
    var d := if description == "" then 0 else 1;
    forall i | 0 <= i < |parts|
      ensures parts[i] == "" || (parts[i][0] == 'S' <==> summary != "" && i == 3)
      ensures parts[i] == "" || (parts[i][0] == 'D' <==> description != "" && i == 3 + s)
    {
      if i >= 3 + s + d {
        assert parts[i] == tail[i - 3 - s - d];
      }
    }
    forall i | 0 <= i < |parts| && StartsWith(parts[i], "Summary: ")
      ensures summary != "" && i == 3
    {
      assert parts[i][0] == 'S';
    }
    forall i | 0 <= i < |parts| && StartsWith(parts[i], "Description: ")
      ensures description != "" && i == 3 + s
    {
      assert parts[i][0] == 'D';
    }
    if summary != "" {
      assert StartsWith(parts[3], "Summary: ");
    }
    if description != "" {
      assert StartsWith(parts[3 + s], "Description: ");
    }
  }

  /** The summary line is there exactly when the summary is non-empty, and
      the description line exactly when the description is; they follow the
      blank line, summary first. */
  lemma SummaryAndDescription(path: string, httpMethod: string, op: Json)
    requires ValidOperation(op)
    ensures var parts := ContentParts(path, httpMethod, op);
            var summary := GetText(op.members, "summary", "");
            var description := GetText(op.members, "description", "");
            && |parts| >= 3 + (if summary == "" then 0 else 1) + (if description == "" then 0 else 1)
            && (SomePartStartsWith(parts, "Summary: ") <==> summary != "")
            && (SomePartStartsWith(parts, "Description: ") <==> description != "")
            && (summary != "" ==> parts[3] == "Summary: " + summary)
            && (description != "" ==> parts[if summary == "" then 3 else 4] == "Description: " + description)
  {
    var h := HeaderParts(path, httpMethod, OperationIdOf(path, httpMethod, op));
    var summary := GetText(op.members, "summary", "");
    var description := GetText(op.members, "description", "");
    var tail := Blocks(op);
    TailLeads(ParametersOf(op), RequestBodyOf(op), ResponsesOf(op));
    assert h[0][0] == 'A' && h[1][0] == 'O';
    ContentPartsSplit(path, httpMethod, op);
    OptionalLinesPlacement(h, summary, description, tail);
  }

  /** Joining a list that starts with two lines and a blank one. */
  lemma JoinOpeningLines(sep: string, a: string, b: string, rest: seq<string>)
    ensures Join(sep, [a, b, ""] + rest) == a + sep + b + sep + (if rest == [] then "" else sep + Join(sep, rest))
  {
    var x := [a, b, ""] + rest;
    assert x[1..] == [b, ""] + rest;
    assert x[1..][1..] == [""] + rest;
    assert Join(sep, x) == a + sep + Join(sep, [b, ""] + rest);
    assert Join(sep, [b, ""] + rest) == b + sep + Join(sep, [""] + rest);
    if rest != [] {
      assert ([""] + rest)[1..] == rest;
      assert Join(sep, [""] + rest) == "" + sep + Join(sep, rest);
    }
  }

  /** The same, for a text laid out as the builder lays it out. */
  lemma JoinLayout(path: string, httpMethod: string, opid: string, s: seq<string>, d: seq<string>, tail: seq<string>)
    ensures var parts := HeaderParts(path, httpMethod, opid) + s + d + tail;
            && |parts| >= 3
            && Join("\n", parts)
               == "API Endpoint: " + Upper(httpMethod) + " " + path + "\n"
                  + "Operation ID: " + opid + "\n"
                  + (if |parts| == 3 then "" else "\n" + Join("\n", parts[3..]))
  {
    var h := HeaderParts(path, httpMethod, opid);
    var parts := h + s + d + tail;
    assert parts == [h[0], h[1], ""] + parts[3..];
    JoinOpeningLines("\n", h[0], h[1], parts[3..]);
  }

  /** The text starts with the endpoint line and the operation-id line, then a
      blank line; the operation id is operationId when the operation has one
      and method_path otherwise, with the method as given. */
  lemma TextOpening(path: string, httpMethod: string, op: Json, info: Json)
    requires ValidOperation(op) && ValidInfo(info)
    ensures var parts := ContentParts(path, httpMethod, op);
            var opid := OperationIdOf(path, httpMethod, op);
            && |parts| >= 3
            && EndpointDocument(path, httpMethod, op, info).pageContent
               == "API Endpoint: " + Upper(httpMethod) + " " + path + "\n"
                  + "Operation ID: " + opid + "\n"
                  + (if |parts| == 3 then "" else "\n" + Join("\n", parts[3..]))
            && (Has(op.members, "operationId") ==> Get(op.members, "operationId") == Some(Str(opid)))
            && (!Has(op.members, "operationId") ==> opid == httpMethod + "_" + path)
  {
    ContentPartsSplit(path, httpMethod, op);
    JoinLayout(path, httpMethod, OperationIdOf(path, httpMethod, op),
      OptionalPart("Summary: ", GetText(op.members, "summary", "")),
      OptionalPart("Description: ", GetText(op.members, "description", "")),
      Blocks(op));
  }

  /** The text as four pieces: the opening and the three blocks. */
  lemma ContentPartsLayout(path: string, httpMethod: string, op: Json)
    requires ValidOperation(op)
    ensures ContentParts(path, httpMethod, op)
         == Opening(path, httpMethod, op) + ParameterBlock(ParametersOf(op))
            + RequestBodyBlock(RequestBodyOf(op)) + ResponsesBlock(ResponsesOf(op))
  {
  }

  /** The opening has three parts, plus one for each optional line shown. */
  lemma OpeningLength(path: string, httpMethod: string, op: Json)
    requires ValidOperation(op)
    ensures |Opening(path, httpMethod, op)|
         == 3 + (if GetText(op.members, "summary", "") == "" then 0 else 1)
              + (if GetText(op.members, "description", "") == "" then 0 else 1)
  {
  }

  /** The line for one source parameter, in terms of its own fields. */
  function SourceParameterLine(p: Json): string
    requires ValidParameter(p)
  {
    "  - " + GetText(p.members, "name", "") + " (" + GetText(p.members, "in", "") + ", "
    + (if Get(p.members, "required") == Some(Bool(true)) then "required" else "optional")
    + "): " + GetText(p.members, "description", "")
  }

  /** The collected parameters render as their source parameters do. */
  lemma ParametersMatchSource(op: Json)
    requires ValidOperation(op)
    ensures var ps := ParametersOf(op);
            var src := SourceParameters(op);
            && |ps| == |src|
            && forall j :: 0 <= j < |src| ==>
                 ValidParameter(src[j]) && ParameterLine(ps[j]) == SourceParameterLine(src[j])
  {
    var ps := ParametersOf(op);
    var src := SourceParameters(op);
    assert forall j :: 0 <= j < |src| ==> ValidParameter(src[j]);
    forall j | 0 <= j < |src|
      ensures ParameterLine(ps[j]) == SourceParameterLine(src[j])
    {
      assert ps[j] == ParameterOf(src[j]);
    }
  }

  /** A block of a header h and its lines, between a front part and a rest. */
  lemma BlockAt(parts: seq<string>, front: seq<string>, h: string, lines: seq<string>, rest: seq<string>)
    requires parts == front + ([h] + lines) + rest
    ensures |parts| == |front| + 1 + |lines| + |rest|
    ensures parts[|front|] == h
    ensures forall j :: 0 <= j < |lines| ==> parts[|front| + 1 + j] == lines[j]
    ensures rest != [] ==> parts[|front| + 1 + |lines|] == rest[0]
  {
    var b := [h] + lines;
    assert parts[|front|] == b[0];
    forall j | 0 <= j < |lines| ensures parts[|front| + 1 + j] == lines[j] {
      assert parts[|front| + 1 + j] == b[1 + j];
    }
  }

  /** Where the parameter block sits in a text made of an opening o, that
      block, and two further pieces. */
  lemma ParameterLayout(parts: seq<string>, o: seq<string>, ps: seq<Parameter>, bb: seq<string>, rb: seq<string>,
                        src: seq<Json>)
    requires parts == o + ParameterBlock(ps) + bb + rb
    requires |ps| == |src|
    requires forall j :: 0 <= j < |src| ==> ValidParameter(src[j]) && ParameterLine(ps[j]) == SourceParameterLine(src[j])
    ensures ParametersShownAt(parts, |o|, src)
  {
    if ps != [] {
      var lines := ParameterLines(ps);
      RegroupLast(o, ParameterBlock(ps), bb, rb);
      BlockAt(parts, o, "\nParameters:", lines, bb + rb);
      forall j | 0 <= j < |src| ensures parts[|o| + 1 + j] == SourceParameterLine(src[j]) {
        assert lines[j] == ParameterLine(ps[j]);
      }
    }
  }

  /** The parameter block of the source parameters src shown at position k
      of parts: the header, then one line per parameter in source order;
      nothing when there are no parameters. */
  predicate ParametersShownAt(parts: seq<string>, k: nat, src: seq<Json>)
  {
    && (forall j :: 0 <= j < |src| ==> ValidParameter(src[j]))
    && |parts| >= k + (if src == [] then 0 else |src| + 1)
    && (src != [] ==> parts[k] == "\nParameters:")
    && (forall j :: 0 <= j < |src| ==> parts[k + 1 + j] == SourceParameterLine(src[j]))
  }

  /** With parameters, the parameter header follows the opening, then one
      line per parameter in source order, saying "required" exactly when its
      flag is true; without parameters there is no such line. */
  lemma ParameterSection(path: string, httpMethod: string, op: Json)
    requires ValidOperation(op)
    ensures var parts := ContentParts(path, httpMethod, op);
            var src := SourceParameters(op);
            var k := |Opening(path, httpMethod, op)|;
            && k == 3 + (if GetText(op.members, "summary", "") == "" then 0 else 1)
                      + (if GetText(op.members, "description", "") == "" then 0 else 1)
            && ParametersShownAt(parts, k, src)
  {
    ContentPartsLayout(path, httpMethod, op);
    OpeningLength(path, httpMethod, op);
    ParametersMatchSource(op);
    ParameterLayout(ContentParts(path, httpMethod, op), Opening(path, httpMethod, op), ParametersOf(op),
      RequestBodyBlock(RequestBodyOf(op)), ResponsesBlock(ResponsesOf(op)), SourceParameters(op));
  }

  /** The request body a source requestBody gives, field by field. */
  lemma RequestBodyMatchesSource(op: Json)
    requires ValidOperation(op)
    ensures Has(op.members, "requestBody") ==>
              var b := Get(op.members, "requestBody").value;
              && ValidRequestBody(b)
              && RequestBodyOf(op).Some?
              && RequestBodyOf(op).value.description == GetText(b.members, "description", "")
              && RequestBodyOf(op).value.content == GetOr(b.members, "content", Obj([]))
    ensures !Has(op.members, "requestBody") ==> RequestBodyOf(op).None?
  {
  }

  lemma ParameterBlockLength(op: Json)
    requires ValidOperation(op)
    ensures |ParameterBlock(ParametersOf(op))| == if SourceParameters(op) == [] then 0 else |SourceParameters(op)| + 1
  {
  }

  /** Where the request-body block sits in a text made of a front part, that
      block, and the responses block. */
  lemma RequestBodyLayout(parts: seq<string>, front: seq<string>, body: Option<RequestBody>, rs: seq<(string, Response)>,
                          description: string, types: seq<string>)
    requires parts == front + RequestBodyBlock(body) + ResponsesBlock(rs)
    requires body.Some? && body.value.description == description && ContentTypes(body.value.content) == types
    ensures RequestBodyShownAt(parts, |front|, description, types)
  {
    var lines := RequestBodyLines(body.value);
    var rb := ResponsesBlock(rs);
    BlockAt(parts, front, "\nRequest Body:", lines, rb);
    assert lines[0] == "  " + description;
    assert types != [] ==> lines[1] == "  Content types: " + Join(", ", types);
    assert |lines| == if types == [] then 1 else 2;
  }

  /** The request-body block shown at position k of parts: the header, the
      indented description, and a content-types line exactly when there are
      media types; without one the text ends there or the responses follow. */
  predicate RequestBodyShownAt(parts: seq<string>, k: nat, description: string, types: seq<string>)
  {
    && |parts| >= k + (if types == [] then 2 else 3)
    && parts[k] == "\nRequest Body:"
    && parts[k + 1] == "  " + description
    && (types != [] ==> parts[k + 2] == "  Content types: " + Join(", ", types))
    && (types == [] ==> k + 2 == |parts| || parts[k + 2] == "\nResponses:")
  }

  /** The position right after the opening and the parameter block. */
  function BodyPosition(path: string, httpMethod: string, op: Json): nat
    requires ValidOperation(op)
  {
    |Opening(path, httpMethod, op)| + (if SourceParameters(op) == [] then 0 else |SourceParameters(op)| + 1)
  }

  /** The collected request body's block sits right after the parameter block. */
  lemma RequestBodyPlacement(path: string, httpMethod: string, op: Json)
    requires ValidOperation(op) && RequestBodyOf(op).Some?
    ensures var body := RequestBodyOf(op).value;
            RequestBodyShownAt(ContentParts(path, httpMethod, op), BodyPosition(path, httpMethod, op),
                               body.description, ContentTypes(body.content))
  {
    var body := RequestBodyOf(op);
    var front := Opening(path, httpMethod, op) + ParameterBlock(ParametersOf(op));
    ContentPartsLayout(path, httpMethod, op);
    ParameterBlockLength(op);
    assert |front| == BodyPosition(path, httpMethod, op);
    RequestBodyLayout(ContentParts(path, httpMethod, op), front, body, ResponsesOf(op),
      body.value.description, ContentTypes(body.value.content));
  }

  /** When the operation has a requestBody, its block follows the parameter
      block: the header, the indented description (even an empty one), and a
      content-types line listing the content map's keys, in order, exactly
      when that map is non-empty. */
  lemma RequestBodySection(path: string, httpMethod: string, op: Json)
    requires ValidOperation(op) && Has(op.members, "requestBody")
    ensures var b := Get(op.members, "requestBody").value;
            && ValidRequestBody(b)
            && BodyPosition(path, httpMethod, op)
               == |Opening(path, httpMethod, op)|
                  + (if SourceParameters(op) == [] then 0 else |SourceParameters(op)| + 1)
            && RequestBodyShownAt(ContentParts(path, httpMethod, op), BodyPosition(path, httpMethod, op),
                                  GetText(b.members, "description", ""),
                                  ContentTypes(GetOr(b.members, "content", Obj([]))))
  {
    RequestBodyMatchesSource(op);
    RequestBodyPlacement(path, httpMethod, op);
  }

  /** The line for one source response, in terms of its own fields. */
  function SourceResponseLine(statusCode: string, r: Json): string
    requires ValidResponse(r)
  {
    "  " + statusCode + ": " + GetText(r.members, "description", "")
  }

  /** The collected responses render as their source responses do. */
  lemma ResponsesMatchSource(op: Json)
    requires ValidOperation(op)
    ensures var rs := ResponsesOf(op);
            var src := SourceResponses(op);
            && |rs| == |src|
            && forall j :: 0 <= j < |src| ==>
                 ValidResponse(src[j].1) && ResponseLine(rs[j].0, rs[j].1) == SourceResponseLine(src[j].0, src[j].1)
  {
    var rs := ResponsesOf(op);
    var src := SourceResponses(op);
    assert forall j :: 0 <= j < |src| ==> ValidResponse(src[j].1);
    forall j | 0 <= j < |src|
      ensures ResponseLine(rs[j].0, rs[j].1) == SourceResponseLine(src[j].0, src[j].1)
    {
      assert rs[j] == (src[j].0, ResponseOf(src[j].1));
    }
  }

  /** Where the responses block sits at the end of a text. */
  lemma ResponseLayout(parts: seq<string>, front: seq<string>, rs: seq<(string, Response)>, src: seq<(string, Json)>)
    requires parts == front + ResponsesBlock(rs)
    requires |rs| == |src|
    requires forall j :: 0 <= j < |src| ==>
               ValidResponse(src[j].1) && ResponseLine(rs[j].0, rs[j].1) == SourceResponseLine(src[j].0, src[j].1)
    ensures ResponsesShownAtEnd(parts, src)
  {
    if rs != [] {
      var lines := ResponseLines(rs);
      assert parts == front + (["\nResponses:"] + lines) + [];
      BlockAt(parts, front, "\nResponses:", lines, []);
      forall j | 0 <= j < |src| ensures parts[|parts| - |src| + j] == SourceResponseLine(src[j].0, src[j].1) {
        assert lines[j] == ResponseLine(rs[j].0, rs[j].1);
      }
    }
  }

  /** The responses block of the source responses src ends parts: the
      header, then one line per status code in order; nothing when there are
      no responses. */
  predicate ResponsesShownAtEnd(parts: seq<string>, src: seq<(string, Json)>)
  {
    && (forall j :: 0 <= j < |src| ==> ValidResponse(src[j].1))
    && |parts| >= (if src == [] then 0 else |src| + 1)
    && (src != [] ==> parts[|parts| - |src| - 1] == "\nResponses:")
    && (forall j :: 0 <= j < |src| ==> parts[|parts| - |src| + j] == SourceResponseLine(src[j].0, src[j].1))
  }

  /** With responses, the text ends with the responses header and one line
      per status code, in the order of the responses map. */
  lemma ResponsesSection(path: string, httpMethod: string, op: Json)
    requires ValidOperation(op)
    ensures var parts := ContentParts(path, httpMethod, op);
            ResponsesShownAtEnd(parts, SourceResponses(op))
  {
    ContentPartsLayout(path, httpMethod, op);
    ResponsesMatchSource(op);
    ResponseLayout(ContentParts(path, httpMethod, op),
      Opening(path, httpMethod, op) + ParameterBlock(ParametersOf(op)) + RequestBodyBlock(RequestBodyOf(op)),
      ResponsesOf(op), SourceResponses(op));
  }

  /** A parameter's schema, the request body's required flag and the values
      of its content map, and a response's content are collected but never
      rendered: records that differ only there give the same text. */
  lemma RenderingIgnoresUnrenderedFields(
    path: string, httpMethod: string, operationId: string, summary: string, description: string,
    ps: seq<Parameter>, ps': seq<Parameter>, body: Option<RequestBody>, body': Option<RequestBody>,
    rs: seq<(string, Response)>, rs': seq<(string, Response)>)
    requires |ps| == |ps'| && forall j :: 0 <= j < |ps| ==> ps[j].(schema := Null) == ps'[j].(schema := Null)
    requires body.Some? <==> body'.Some?
    requires body.Some? ==>
               body.value.description == body'.value.description
               && ContentTypes(body.value.content) == ContentTypes(body'.value.content)
    requires |rs| == |rs'| && forall j :: 0 <= j < |rs| ==> rs[j].0 == rs'[j].0 && rs[j].1.description == rs'[j].1.description
    ensures RenderParts(path, httpMethod, operationId, summary, description, ps, body, rs)
         == RenderParts(path, httpMethod, operationId, summary, description, ps', body', rs')
  {
    forall j | 0 <= j < |ps| ensures ParameterLine(ps[j]) == ParameterLine(ps'[j]) {
      assert ps[j].(schema := Null) == ps'[j].(schema := Null);
    }
    assert ParameterBlock(ps) == ParameterBlock(ps');
    assert ResponsesBlock(rs) == ResponsesBlock(rs');
  }

  /** The metadata dict: seven keys in a fixed order; the method upper-cased;
      path and operation id as in the text; title and version taken from the
      info object or empty; tags taken from the operation or an empty list;
      the source always "openapi_spec". */
  lemma MetadataFields(path: string, httpMethod: string, op: Json, info: Json)
    requires ValidOperation(op) && ValidInfo(info)
    ensures var md := EndpointDocument(path, httpMethod, op, info).metadata;
            && Keys(md) == ["path", "method", "operation_id", "api_title", "api_version", "tags", "source"]
            && DistinctKeys(md)
            && Get(md, "path") == Some(Str(path))
            && Get(md, "method") == Some(Str(Upper(httpMethod)))
            && Get(md, "operation_id") == Some(Str(OperationIdOf(path, httpMethod, op)))
            && Get(md, "api_title") == (if Has(info.members, "title") then Get(info.members, "title") else Some(Str("")))
            && Get(md, "api_version") == (if Has(info.members, "version") then Get(info.members, "version") else Some(Str("")))
            && Get(md, "tags") == (if Has(op.members, "tags") then Get(op.members, "tags") else Some(Arr([])))
            && Get(md, "source") == Some(Str("openapi_spec"))
  {
    MetadataOfFields(path, httpMethod, op, info);
  }

  lemma MetadataOfFields(path: string, httpMethod: string, op: Json, info: Json)
    requires ValidOperation(op) && ValidInfo(info)
    ensures var md := MetadataOf(path, httpMethod, op, info);
            && Keys(md) == ["path", "method", "operation_id", "api_title", "api_version", "tags", "source"]
            && DistinctKeys(md)
            && Get(md, "path") == Some(Str(path))
            && Get(md, "method") == Some(Str(Upper(httpMethod)))
            && Get(md, "operation_id") == Some(Str(OperationIdOf(path, httpMethod, op)))
            && Get(md, "api_title") == (if Has(info.members, "title") then Get(info.members, "title") else Some(Str("")))
            && Get(md, "api_version") == (if Has(info.members, "version") then Get(info.members, "version") else Some(Str("")))
            && Get(md, "tags") == (if Has(op.members, "tags") then Get(op.members, "tags") else Some(Arr([])))
            && Get(md, "source") == Some(Str("openapi_spec"))
  {
    MetadataTable(Str(path), Str(Upper(httpMethod)), Str(OperationIdOf(path, httpMethod, op)),
                  Str(GetText(info.members, "title", "")), Str(GetText(info.members, "version", "")),
                  GetOr(op.members, "tags", Arr([])), Str("openapi_spec"));
    TextOrDefault(info.members, "title", "");
    TextOrDefault(info.members, "version", "");
    ValueOrDefault(op.members, "tags", Arr([]));
  }

  /** The seven metadata entries, whatever their values: keys in order, distinct, each found by its key. */
  lemma MetadataTable(pathValue: Json, methodValue: Json, idValue: Json, titleValue: Json,
                      versionValue: Json, tagsValue: Json, sourceValue: Json)
    ensures var md := [("path", pathValue), ("method", methodValue), ("operation_id", idValue),
                       ("api_title", titleValue), ("api_version", versionValue), ("tags", tagsValue),
                       ("source", sourceValue)];
            && Keys(md) == ["path", "method", "operation_id", "api_title", "api_version", "tags", "source"]
            && DistinctKeys(md)
            && Get(md, "path") == Some(pathValue) && Get(md, "method") == Some(methodValue)
            && Get(md, "operation_id") == Some(idValue) && Get(md, "api_title") == Some(titleValue)
            && Get(md, "api_version") == Some(versionValue) && Get(md, "tags") == Some(tagsValue)
            && Get(md, "source") == Some(sourceValue)
  {
    MetadataLookup([("path", pathValue), ("method", methodValue), ("operation_id", idValue),
                    ("api_title", titleValue), ("api_version", versionValue), ("tags", tagsValue),
                    ("source", sourceValue)]);
  }

  /** A string read with a default, as the value it came from. */
  lemma TextOrDefault(m: seq<(string, Json)>, k: string, default: string)
    requires TextOrAbsent(m, k)
    ensures Some(Str(GetText(m, k, default))) == if Has(m, k) then Get(m, k) else Some(Str(default))
  {
  }

  /** A value read with a default, as the value it came from. */
  lemma ValueOrDefault(m: seq<(string, Json)>, k: string, default: Json)
    ensures Some(GetOr(m, k, default)) == if Has(m, k) then Get(m, k) else Some(default)
  {
  }

  /** Lookup in a seven-entry dict with the metadata keys. */
  lemma MetadataLookup(md: seq<(string, Json)>)
    requires |md| == 7
    requires md[0].0 == "path" && md[1].0 == "method" && md[2].0 == "operation_id" && md[3].0 == "api_title"
    requires md[4].0 == "api_version" && md[5].0 == "tags" && md[6].0 == "source"
    ensures Keys(md) == ["path", "method", "operation_id", "api_title", "api_version", "tags", "source"]
    ensures DistinctKeys(md)
    ensures Get(md, "path") == Some(md[0].1) && Get(md, "method") == Some(md[1].1)
    ensures Get(md, "operation_id") == Some(md[2].1) && Get(md, "api_title") == Some(md[3].1)
    ensures Get(md, "api_version") == Some(md[4].1) && Get(md, "tags") == Some(md[5].1)
    ensures Get(md, "source") == Some(md[6].1)
  {
    MetadataKeysDistinct();
    assert forall i :: 0 <= i < 7 ==> md[i].0 == MetadataKeys[i];
    assert DistinctKeys(md);
    assert Keys(md) == MetadataKeys;
    GetAt(md, 0);
    GetAt(md, 1);
    GetAt(md, 2);
    GetAt(md, 3);
    GetAt(md, 4);
    GetAt(md, 5);
    GetAt(md, 6);
  }

  /** The metadata keys, in the order the dict literal lists them. */
  const MetadataKeys: seq<string> := ["path", "method", "operation_id", "api_title", "api_version", "tags", "source"]

  lemma MetadataKeysDistinct()
    ensures forall i, j :: 0 <= i < j < |MetadataKeys| ==> MetadataKeys[i] != MetadataKeys[j]
  {
    assert "path" != "tags" by { assert "path"[0] != "tags"[0]; }
    assert "method" != "source" by { assert "method"[0] != "source"[0]; }
  }
}

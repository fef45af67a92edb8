/** Properties that join the ingestion side and the query side: what the
    query script shows for a document that ingestion built. */
module EndToEnd {
  import opened Dicts
  import opened Json
  import opened Text
  import opened Documents
  import opened Ingest
  import opened IngestSpecs
  import opened Query

  /** A document built from an operation meets the display precondition
      (the shown metadata fields are strings), and its metadata lines show
      the upper-cased method, the path and operation id of its text, and the
      API's title and version (empty when the info object has none, so never
      "N/A"). Whether it can be formatted depends on its tags; see
      UntaggedEndpoint, TaggedEndpoint and ListTaggedEndpoint. */
  lemma DisplayOfEndpoint(path: string, httpMethod: string, op: Json, info: Json, tags: string)
    requires ValidOperation(op) && ValidInfo(info)
    ensures var md := EndpointDocument(path, httpMethod, op, info).metadata;
            && Displayable(md)
            && FieldLines(md, tags)
               == [ "Method: " + Upper(httpMethod),
                    "Path: " + path,
                    "Operation ID: " + OperationIdOf(path, httpMethod, op),
                    "API: " + GetText(info.members, "title", "") + " v" + GetText(info.members, "version", ""),
                    "Tags: " + tags ]
  {
    MetadataFields(path, httpMethod, op, info);
  }

  /** An operation without tags is shown with an empty tags line. */
  lemma UntaggedEndpoint(path: string, httpMethod: string, op: Json, info: Json, index: int)
    requires ValidOperation(op) && ValidInfo(info) && !Has(op.members, "tags")
    ensures var doc := EndpointDocument(path, httpMethod, op, info);
            && Displayable(doc.metadata)
            && TagsText(doc.metadata) == Some("")
            && FormatDocument(doc, index) == Some(Join("\n", FormatLines(doc, index, "")))
  {
    var doc := EndpointDocument(path, httpMethod, op, info);
    MetadataFields(path, httpMethod, op, info);
    EmptyTagsFormat(doc, index);
  }

  /** An operation whose tags are a list of strings is shown with those
      strings joined by ", ", in order, on its tags line. */
  lemma TaggedEndpoint(path: string, httpMethod: string, op: Json, info: Json, index: int, tags: seq<string>)
    requires ValidOperation(op) && ValidInfo(info)
    requires Get(op.members, "tags") == Some(Arr(seq(|tags|, i requires 0 <= i < |tags| => Str(tags[i]))))
    ensures var doc := EndpointDocument(path, httpMethod, op, info);
            && Displayable(doc.metadata)
            && TagsText(doc.metadata) == Some(Join(", ", tags))
            && FormatDocument(doc, index) == Some(Join("\n", FormatLines(doc, index, Join(", ", tags))))
  {
    MetadataFields(path, httpMethod, op, info);
    TagsOfStrings(EndpointDocument(path, httpMethod, op, info).metadata, tags);
  }

  /** An operation whose tags are a list can be formatted exactly when every
      tag is a string; otherwise the join raises TypeError. */
  lemma ListTaggedEndpoint(path: string, httpMethod: string, op: Json, info: Json, index: int)
    requires ValidOperation(op) && ValidInfo(info)
    requires Get(op.members, "tags").Some? && Get(op.members, "tags").value.Arr?
    ensures var doc := EndpointDocument(path, httpMethod, op, info);
            var items := Get(op.members, "tags").value.items;
            && Displayable(doc.metadata)
            && (FormatDocument(doc, index).Some? <==> forall i :: 0 <= i < |items| ==> items[i].Str?)
  {
    var doc := EndpointDocument(path, httpMethod, op, info);
    MetadataFields(path, httpMethod, op, info);
    ListTagsFormat(doc, index, Get(op.members, "tags").value.items);
  }

  /** The specification of a single widgets endpoint. */
  function WidgetsOperation(): Json
  {
    Obj([("summary", Str("List widgets")), ("responses", WidgetsResponseMap())])
  }

  function WidgetsResponseMap(): Json
  {
    Obj([("200", OkResponse())])
  }

  function OkResponse(): Json
  {
    Obj([("description", Str("OK"))])
  }

  function WidgetsInfo(): Json
  {
    Obj([("title", Str("T")), ("version", Str("1.0"))])
  }

  function WidgetsSpec(): Json
  {
    Obj([("info", WidgetsInfo()), ("paths", WidgetsPaths())])
  }

  function WidgetsPaths(): Json
  {
    Obj([("/widgets", WidgetsItem())])
  }

  lemma OkResponseValues()
    ensures ValidResponse(OkResponse())
    ensures ResponseOf(OkResponse()) == Response("OK", Obj([]))
  {
    GetOne("description", Str("OK"), "description");
    GetOne("description", Str("OK"), "content");
  }

  lemma WidgetsOperationLookups()
    ensures var m := WidgetsOperation().members;
            && Get(m, "summary") == Some(Str("List widgets"))
            && Get(m, "responses") == Some(WidgetsResponseMap())
            && Get(m, "description") == None
            && Get(m, "operationId") == None
            && Get(m, "parameters") == None
            && Get(m, "requestBody") == None
  {
    var v0, v1 := Str("List widgets"), WidgetsResponseMap();
    GetTwo("summary", v0, "responses", v1, "summary");
    GetTwo("summary", v0, "responses", v1, "responses");
    GetTwo("summary", v0, "responses", v1, "description");
    GetTwo("summary", v0, "responses", v1, "operationId");
    GetTwo("summary", v0, "responses", v1, "parameters");
    GetTwo("summary", v0, "responses", v1, "requestBody");
  }

  lemma WidgetsOperationValid()
    ensures ValidOperation(WidgetsOperation())
  {
    WidgetsOperationLookups();
    OkResponseValues();
    assert WidgetsResponseMap().members[0].1 == OkResponse();
  }

  lemma WidgetsInfoValid()
    ensures ValidInfo(WidgetsInfo())
  {
    GetTwo("title", Str("T"), "version", Str("1.0"), "title");
    GetTwo("title", Str("T"), "version", Str("1.0"), "version");
  }

  lemma WidgetsRecords()
    ensures ValidOperation(WidgetsOperation())
    ensures ParametersOf(WidgetsOperation()) == []
    ensures RequestBodyOf(WidgetsOperation()) == None
    ensures ResponsesOf(WidgetsOperation()) == [("200", Response("OK", Obj([])))]
  {
    WidgetsOperationValid();
    WidgetsOperationLookups();
    OkResponseValues();
    var rs := SourceResponses(WidgetsOperation());
    assert rs == [("200", OkResponse())];
    assert ResponseRecords(rs)[0] == ("200", ResponseOf(OkResponse()));
  }

  lemma WidgetsValues()
    ensures ValidOperation(WidgetsOperation()) && ValidInfo(WidgetsInfo())
    ensures ParametersOf(WidgetsOperation()) == []
    ensures RequestBodyOf(WidgetsOperation()) == None
    ensures ResponsesOf(WidgetsOperation()) == [("200", Response("OK", Obj([])))]
    ensures OperationIdOf("/widgets", "get", WidgetsOperation()) == "get_/widgets"
    ensures GetText(WidgetsOperation().members, "summary", "") == "List widgets"
    ensures GetText(WidgetsOperation().members, "description", "") == ""
  {
    WidgetsRecords();
    WidgetsInfoValid();
    WidgetsOperationLookups();
  }

  function WidgetsItem(): Json
  {
    Obj([("get", WidgetsOperation())])
  }

  lemma WidgetsRender()
    ensures RenderParts("/widgets", "get", "get_/widgets", "List widgets", "", [], None, [("200", Response("OK", Obj([])))])
         == ["API Endpoint: GET /widgets", "Operation ID: get_/widgets", "", "Summary: List widgets",
             "\nResponses:", "  200: OK"]
  {
    var h := HeaderParts("/widgets", "get", "get_/widgets");
    var sm := OptionalPart("Summary: ", "List widgets");
    var rb := ResponsesBlock([("200", Response("OK", Obj([])))]);
    WidgetsHeader();
    WidgetsSummary();
    WidgetsResponses();
    assert OptionalPart("Description: ", "") == [];
    assert ParameterBlock([]) == [];
    assert RequestBodyBlock(None) == [];
    assert h + sm + [] + [] + [] + rb == h + sm + rb;
  }

  lemma WidgetsHeader()
    ensures HeaderParts("/widgets", "get", "get_/widgets") == ["API Endpoint: GET /widgets", "Operation ID: get_/widgets", ""]
  {
    UpperGet();
    assert "API Endpoint: " + "GET" + " " + "/widgets" == "API Endpoint: GET /widgets";
    assert "Operation ID: " + "get_/widgets" == "Operation ID: get_/widgets";
  }

  lemma WidgetsSummary()
    ensures OptionalPart("Summary: ", "List widgets") == ["Summary: List widgets"]
  {
    assert "Summary: " + "List widgets" == "Summary: List widgets";
  }

  lemma WidgetsResponses()
    ensures ResponsesBlock([("200", Response("OK", Obj([])))]) == ["\nResponses:", "  200: OK"]
  {
    assert ResponseLine("200", Response("OK", Obj([]))) == "  200: OK" by {
      assert "  " + "200" + ": " + "OK" == "  200: OK";
    }
  }

  lemma WidgetsParts()
    ensures ValidOperation(WidgetsOperation())
    ensures ContentParts("/widgets", "get", WidgetsOperation())
         == ["API Endpoint: GET /widgets", "Operation ID: get_/widgets", "", "Summary: List widgets",
             "\nResponses:", "  200: OK"]
  {
    WidgetsValues();
    WidgetsRender();
  }

  lemma WidgetsText()
    ensures ValidOperation(WidgetsOperation()) && ValidInfo(WidgetsInfo())
    ensures EndpointDocument("/widgets", "get", WidgetsOperation(), WidgetsInfo()).pageContent
         == Join("\n", ["API Endpoint: GET /widgets", "Operation ID: get_/widgets", "", "Summary: List widgets",
                        "\nResponses:", "  200: OK"])
  {
    WidgetsValues();
    WidgetsParts();
  }

  lemma WidgetsItemLookups()
    ensures Keys(WidgetsItem().members) == ["get"]
    ensures Get(WidgetsItem().members, "get") == Some(WidgetsOperation())
    ensures forall m :: Has(WidgetsItem().members, m) ==> m == "get"
  {
    GetOne("get", WidgetsOperation(), "get");
  }

  lemma WidgetsItemValid()
    ensures ValidPathItem(WidgetsItem()) && IsDict(WidgetsItem()) && OperationsValid(WidgetsItem(), HttpMethods)
    ensures Keys(WidgetsItem().members) == ["get"]
    ensures Get(WidgetsItem().members, "get") == Some(WidgetsOperation())
  {
    WidgetsOperationValid();
    WidgetsItemLookups();
    assert OperationsValid(WidgetsItem(), HttpMethods);
  }

  lemma WidgetsPresentMethods()
    ensures WidgetsItem().Obj?
    ensures PresentMethods(WidgetsItem(), HttpMethods) == ["get"]
  {
    WidgetsItemValid();
    HttpMethodsDistinct();
    assert HttpMethods[0] == "get";
    PresentMethodsOfSingle(WidgetsItem(), HttpMethods, "get");
  }

  lemma WidgetsItemDocuments()
    ensures ValidPathItem(WidgetsItem()) && ValidInfo(WidgetsInfo()) && ValidOperation(WidgetsOperation())
    ensures MethodDocuments("/widgets", WidgetsItem(), WidgetsInfo(), HttpMethods)
         == [EndpointDocument("/widgets", "get", WidgetsOperation(), WidgetsInfo())]
  {
    WidgetsValues();
    WidgetsItemValid();
    WidgetsPresentMethods();
    MethodDocumentsArePresent("/widgets", WidgetsItem(), WidgetsInfo(), HttpMethods);
  }

  lemma WidgetsSpecDocuments()
    ensures ValidSpec(WidgetsSpec()) && ValidOperation(WidgetsOperation()) && ValidInfo(WidgetsInfo())
    ensures SpecDocuments(WidgetsSpec()) == [EndpointDocument("/widgets", "get", WidgetsOperation(), WidgetsInfo())]
  {
    WidgetsValues();
    WidgetsSpecValid();
    WidgetsItemDocuments();
    var paths := PathsOf(WidgetsSpec());
    assert paths == [("/widgets", WidgetsItem())];
    assert InfoOf(WidgetsSpec()) == WidgetsInfo();
    assert paths[..0] == [];
    assert ItemDocuments("/widgets", WidgetsItem(), WidgetsInfo()) == MethodDocuments("/widgets", WidgetsItem(), WidgetsInfo(), HttpMethods);
    assert PathDocuments(paths, WidgetsInfo()) == [] + ItemDocuments("/widgets", WidgetsItem(), WidgetsInfo());
  }

  /** Ingesting it yields one document, for GET /widgets, whose text is the
      endpoint line, the default operation id, a blank line, the summary and
      the responses block. */
  lemma WidgetsScenario()
    ensures ValidSpec(WidgetsSpec())
    ensures var docs := SpecDocuments(WidgetsSpec());
            && |docs| == 1
            && docs[0].pageContent
               == Join("\n", ["API Endpoint: GET /widgets", "Operation ID: get_/widgets", "", "Summary: List widgets",
                        "\nResponses:", "  200: OK"])
            && Get(docs[0].metadata, "method") == Some(Str("GET"))
            && Get(docs[0].metadata, "path") == Some(Str("/widgets"))
  {
    WidgetsSpecDocuments();
    WidgetsText();
    MetadataFields("/widgets", "get", WidgetsOperation(), WidgetsInfo());
    UpperGet();
  }

  lemma UpperGet()
    ensures Upper("get") == "GET"
  {
  }


  lemma WidgetsSpecLookups()
    ensures Get(WidgetsSpec().members, "info") == Some(WidgetsInfo())
    ensures Get(WidgetsSpec().members, "paths") == Some(WidgetsPaths())
  {
    GetTwo("info", WidgetsInfo(), "paths", WidgetsPaths(), "info");
    GetTwo("info", WidgetsInfo(), "paths", WidgetsPaths(), "paths");
  }

  lemma WidgetsPathsValid()
    ensures IsDict(WidgetsPaths()) && forall i :: 0 <= i < |WidgetsPaths().members| ==> ValidPathItem(WidgetsPaths().members[i].1)
  {
    WidgetsItemValid();
    var paths := WidgetsPaths();
    forall i | 0 <= i < |paths.members| ensures ValidPathItem(paths.members[i].1) {
      assert paths.members[i] == ("/widgets", WidgetsItem());
    }
  }

  lemma WidgetsSpecValid()
    ensures ValidSpec(WidgetsSpec())
    ensures Get(WidgetsSpec().members, "info") == Some(WidgetsInfo())
    ensures Get(WidgetsSpec().members, "paths") == Some(WidgetsPaths())
  {
    WidgetsSpecLookups();
    WidgetsPathsValid();
    WidgetsInfoValid();
    assert IsDict(WidgetsSpec());
  }
}

# OpenAPI endpoint documents, modelled in Dafny

The repository turns OpenAPI specification files into one searchable
document per endpoint and lets a user query those documents from the
command line. This project models the part of it that decides what those
documents and the displayed results contain:

- **The document builder** of the ingestion script, `create_endpoint_document`
  (`ingest.dfy`). It is imperative Dafny that follows the script step by step:
  a loop collects the parameter records, a loop fills the responses dict, and
  the text is built up as a list of parts that is appended to and then joined
  with newlines. Each method is proved equal to a specification function
  (`EndpointDocument`, `ContentParts`, `MetadataOf`). Lemmas then state the
  layout of the text: the opening lines, the summary and description lines,
  the three blocks and their headers, and the metadata dict.
- **The walk over a specification**, `process_openapi_spec`, and the
  concatenation of all files' documents in `ingest_openapi_specs`
  (`ingest_specs.dfy`). These are nested `for` loops proved against
  `SpecDocuments` and `Concat`. Lemmas cover:
  - which methods yield documents, and in what order;
  - how many documents result;
  - that other path-item keys are ignored;
  - that documents of consecutive paths and files follow each other.
- **The query script's display and decisions**, `format_document` and `main`
  (`query.dfy`). These are pure functions. The query is the arguments joined
  by spaces. The vector store is a function parameter `search`. The outcome of
  a run is a datatype with its exit status. The result loop prints blocks until
  the first result whose tags cannot be joined, where Python raises TypeError.
- **End-to-end lemmas** (`endtoend.dfy`) cover what the query script shows for
  a document the builder produced, and a concrete one-endpoint specification
  traced through the whole walk.

Support modules:

- `dicts.dfy`: a Python dict is an association list with distinct keys that
  keeps insertion order. Lookup and `d[k] = v` (`Put`) are modelled on it.
- `json.dfy`: parsed JSON values.
- `text.dfy`: `join`, `split`, `upper`, `str(int)` and `c * n`.
- `documents.dfy`: the document record, with its text and metadata.
- `seqs.dfy`: mapping over a sequence, which stands for the append loops at ingest.py:55-63 and 78-82, numbering, which stands for `enumerate`, and facts about concatenation and slicing used by the proofs.

Inputs are assumed to have the shape the code relies on, and each member
that needs it states this as a `requires`: dicts wherever `.get` is called,
and strings (or a boolean for `required`) in the rendered fields.

## Model

| member | source | states |
|---|---|---|
| Ingest.CreateEndpointDocument | ingest.py:31-129 | the document returned has as text the newline-join of the parts the builder appends, and as metadata the seven-key dict, both as fixed by EndpointDocument |
| Ingest.ParameterOf | ingest.py:56-62 | a parameter record is marked required exactly when the source parameter's `required` is true; an absent flag counts as optional |
| Ingest.CollectParameters | ingest.py:53-63 | the collected list has one record per source parameter, in source order, and is empty when the operation has no `parameters` key |
| Ingest.CollectResponses | ingest.py:76-82 | the responses dict gets one entry per source status code, in source order, each holding that response's description and content |
| Ingest.AppendOptional | ingest.py:91-95 | a labelled line is appended exactly when the value is non-empty |
| Ingest.AppendParameters | ingest.py:97-103 | with parameters, the header and then one line per parameter in order are appended; with none, nothing is |
| Ingest.AppendRequestBody | ingest.py:105-109 | with a request body, the header, its description line and (only when the content passes the truth test, i.e. is a non-empty dict) the content-types line are appended |
| Ingest.AppendResponses | ingest.py:111-114 | with responses, the header and one line per status code in order are appended; with none, nothing is |
| Ingest.OperationIdOf | ingest.py:50 | the operation id is the operation's `operationId` string when the key is present, and otherwise the method as given, "_", and the path |
| Ingest.ContentTypesShown | ingest.py:108-109 | the content-types line is written exactly when the request body's content passes Python's truth test: a non-empty dict, never null, false, 0, "", [] or {} |
| Ingest.TextOpening | ingest.py:85-116 | the text starts with the endpoint line (method upper-cased), the operation-id line and a blank line; the id is `operationId` when present, otherwise method_path with the method as given |
| Ingest.SummaryAndDescription | ingest.py:91-95 | a "Summary: " part occurs if and only if the summary is non-empty, and likewise for "Description: "; they sit right after the blank line, summary first |
| Ingest.ParameterSection | ingest.py:97-103 | with source parameters, the header follows the opening and is followed by one line per parameter in source order, reading `  - name (in, required|optional): description` |
| Ingest.RequestBodySection | ingest.py:105-109 | whenever the operation has a `requestBody` key, even with an empty description, its header and `  description` line come after the parameters; a content-types line listing the content keys joined by ", " follows exactly when there are keys |
| Ingest.ResponsesSection | ingest.py:111-114 | with responses, the text ends with the responses header and one `  code: description` line per status code in source order |
| Ingest.BlockHeaders | ingest.py:97-114 | each block header occurs once when its block is emitted and not at all otherwise: parameters when the source list is non-empty, request body when the key exists, responses when the map is non-empty |
| Ingest.BlocksAreIndented | ingest.py:97-114 | every line of each block after its header begins with a space |
| Ingest.RenderingIgnoresUnrenderedFields | ingest.py:97-114 | parameter schemas, the request body's `required` value and content values, and response content do not affect the text |
| Ingest.MetadataFields | ingest.py:119-127 | the metadata has the seven keys in order: path and operation id as in the text, the method upper-cased, title and version from the info object or "", tags from the operation or [], source "openapi_spec" |
| IngestSpecs.ProcessOpenApiSpec | ingest.py:132-157 | the nested loop returns exactly the documents of every path in path order, and for each path those of its methods in the fixed order |
| IngestSpecs.AppendPathItem | ingest.py:151-155 | the inner loop appends one document for each of the seven methods the path item has, in the fixed order |
| IngestSpecs.InPathItem | ingest.py:152 | `method in path_item` holds for a dict exactly when the method is one of its keys, for a list exactly when the method string is one of its items, for a string only when the method is a substring of it (Text.Contains), and never for null, a boolean or a number |
| IngestSpecs.NonDictPathItem | ingest.py:149-155 | a path item that is not a dict is walked without error exactly when it is a list or string holding none of the seven methods, and it then yields no documents and counts no methods |
| IngestSpecs.PresentMethods | ingest.py:151-152 | every method kept is one of the methods tried and a key of the path item |
| IngestSpecs.PresentMethodsExact | ingest.py:151-152 | a method is used if and only if the path item has it, and the methods used keep the fixed order |
| IngestSpecs.MethodDocumentsArePresent | ingest.py:151-155 | the documents of a path item are, one for one, those of the methods it has, each built from the operation under that method |
| IngestSpecs.PathItemCount | ingest.py:151-155 | a path item yields as many documents as it has of the seven method keys |
| IngestSpecs.DocumentCount | ingest.py:148-155 | the number of documents is the sum over paths of the number of method keys each path item has |
| IngestSpecs.IgnoresOtherKeys | ingest.py:151-153 | two path items that agree on the seven method keys yield the same documents, whatever their other keys |
| IngestSpecs.PathDocumentsAppend | ingest.py:149-155 | the documents of two runs of path entries are those of the first followed by those of the second |
| IngestSpecs.SpecDocuments | ingest.py:148 | a specification without `paths` yields no documents |
| IngestSpecs.IngestOpenApiSpecs | ingest.py:175-199 | with no specification files the run stops with exit status 1; otherwise the collected documents are each file's documents, file after file |
| IngestSpecs.ConcatAppend | ingest.py:183-199 | the collected documents of two runs of files are those of the first run followed by those of the second |
| Query.Rule | query.py:90 | a separator is 80 copies of its character |
| Query.Shown | query.py:93-96 | a metadata field shows its string value, or "N/A" when absent |
| Query.JoinableItems | query.py:97 | joining tags fails exactly for a list with a non-string element or for null, a boolean or a number; a list of strings joins its strings in order, a string joins its characters, a dict joins its keys in order |
| Query.TagsText | query.py:97 | absent tags give the empty string |
| Query.TagsOfStrings | query.py:97 | a list of strings gives its strings joined with ", " |
| Query.FormatDocument | query.py:77-105 | formatting succeeds exactly when the tags can be joined |
| Query.FormatShape | query.py:89-103 | a result has thirteen lines: newline and 80 '=', the result number, 80 '=', method, path, operation id, API and tags lines, newline and 80 '-', "Content:", 80 '-', the page content verbatim, and 80 '=' with a newline |
| Query.FormattedText | query.py:89-105 | the formatted string is those thirteen lines joined with newlines, written out |
| Query.EmptyTagsFormat | query.py:97 | an empty tags list formats, with the empty string on the tags line |
| Query.ListTagsFormat | query.py:97 | a result whose tags are a list is formatted exactly when every tag is a string |
| Query.MissingMetadata | query.py:93-97 | with no metadata the fields read N/A, the API line is "API: N/A vN/A", and the tags line is "Tags: " |
| Query.ExitStatus | query.py:116-126 | the exit status is 0 or 1, and 0 exactly when there were no results or every result was printed; the usage message, a missing store and an uncaught TypeError give 1 |
| Query.Main | query.py:110-126 | fewer than two arguments gives the usage outcome; otherwise the query is the arguments after the script name joined by single spaces; an empty result list gives the no-results outcome, and a missing store gives the store-unavailable outcome |
| Query.MainListing | query.py:124-132 | with results, block i is result i formatted with number i+1; the run lists all results exactly when every result's tags can be joined; the exit status is 0 exactly for a full listing or no results |
| Query.RenderResults | query.py:131-132 | the loop prints at most one block per result, and one for every result when it runs to the end |
| Query.RenderBlocksPrefix | query.py:131-132 | the printed blocks are the leading successfully formatted results; printing stops at the first failure and is complete exactly when there is none |
| Query.RenderNumbering | query.py:131-132 | the i-th printed block is result i formatted with number first + i |
| Query.RenderStops | query.py:131-132 | printing stops early only at a result whose tags cannot be joined, and completes exactly when every result's tags can be joined |
| Query.QueryRecoversArguments | query.py:119 | when no argument holds a space, splitting the query on spaces gives the arguments back |
| EndToEnd.DisplayOfEndpoint | query.py:93-97 | a built document meets the display precondition (its shown metadata fields are strings); its lines show the upper-cased method, the path, the operation id from the text, and the API title and version ("" when absent, never N/A) |
| EndToEnd.UntaggedEndpoint | ingest.py:125 | a document built from an operation without tags is formatted, with an empty tags line |
| EndToEnd.TaggedEndpoint | ingest.py:125 | a document built from an operation whose tags are a list of strings is formatted, with those strings joined by ", " in order on its tags line |
| EndToEnd.ListTaggedEndpoint | query.py:97 | a document built from an operation whose tags are a list is formatted exactly when every tag is a string; otherwise the join raises TypeError |
| EndToEnd.WidgetsScenario | ingest.py:132-157 | a specification with one GET endpoint yields one document, with the expected text and method and path metadata |
| Dicts.Keys | ingest.py:109 | a dict's keys come one per entry, in insertion order, as `.keys()` and iteration over the dict give them |
| Json.GetText | ingest.py:48-60 | `.get(k, default)` on a string field gives the string stored under k, or the default when k is absent |
| Json.GetFlag | ingest.py:59 | `param.get('required', False)` is true exactly when the stored value is `true`; absent counts as false |
| Dicts.Get | ingest.py:153 | `d[k]` gives the value stored under k; the lookup fails (KeyError) exactly when k is not a key |
| Dicts.GetOr | ingest.py:145-148 | `d.get(k, default)` gives the value stored under k when k is a key, and the default otherwise |
| Json.Falsy | ingest.py:108 | a dict fails the truth test exactly when it has no keys; null, "", [] and {} fail it and every other string, list or dict passes |
| Text.Join | query.py:105 | joining no parts gives "", one part gives that part, and the first part always begins the result |
| Text.Upper | ingest.py:121 | the upper-cased string has the same length, every ASCII lower-case letter becomes its capital, no lower-case ASCII letter is left, and other characters are kept |
| Text.IntToString | query.py:91 | the rendering of a number is its decimal digits, after a minus sign when negative, with no leading zero (only 0 itself starts with '0'), and the digits parse back to its magnitude |
| Ingest.RequestBodyOf | ingest.py:66-73 | the request_body record exists exactly when the operation has a `requestBody` key; its description and content are the body's own, or "" and {} when absent |
| IngestSpecs.InfoOf | ingest.py:145 | the info object is the specification's `info` when present, and {} otherwise |
| IngestSpecs.PathsOf | ingest.py:148 | the path entries are those of the specification's `paths` dict, in order, and none when the key is absent |
| Dicts.PutGet | ingest.py:79 | after `d[k] = v`, looking up k gives v and every other key is unaffected |
| Dicts.Put | ingest.py:79 | assigning a new key appends it at the end of the dict; an existing key keeps its place |
| Text.SplitJoin | query.py:119 | joining pieces without the separator and splitting again gives the pieces back |
| Text.JoinSplit | query.py:119 | splitting on a character and joining again on it gives the string back |
| Text.ParseNatToString | query.py:91 | the decimal numeral of a result number denotes that number |

## Left out

- File reading, JSON parsing, the exit on a parse error, and directory globbing (ingest.py:21-28, 173) are filesystem I/O. The specifications arrive already parsed, as a list.
- The embedding model, ChromaDB persistence and similarity search (ingest.py:203-216, query.py:19-74) are foreign libraries. Search is the parameter `search` with k = 5; loading failures are its `None`.
- server.py and config.py: web routing and environment configuration.
- Console printing of progress messages, result counts and "Unknown API" defaults is output only. The printed result blocks are modelled as values.
- Ingest.ValidOperation, IngestSpecs.ValidSpec: these preconditions exclude input on which the script raises AttributeError or TypeError and aborts, such as `"responses": []`, `"get": null`, `"parameters": null` or a path item `["get"]`. That crash path is not modelled. Shapes the script tolerates are admitted and give what it gives: `"parameters": {}` or `""` iterates nothing, so no parameter block is written, and a path item that is a list or string holding none of the seven methods yields no documents. A request body's `content` is treated as the script treats it. A value of any type that fails the truth test is admitted and writes no content-types line. Only a truthy value that is not a dict is excluded, since `.keys()` raises on it at ingest.py:109.
- Ingest.ValidOperation: Python's `str()` of non-string values in the f-strings is not modelled. Rendered fields are required to be strings, and `required` a boolean. This also excludes falsy non-string values of `summary` or `description` (null, false, 0, [] and {}), which the script skips without rendering, since `if summary:` and `if description:` fail.
- Ingest.ValidInfo: the info object's `title` and `version` are required to be strings when present, although ingest.py:123-124 copy a value of any type into the metadata. Only the query script shows them, and its `str()` of a non-string value is not modelled.
- Query.Displayable: likewise, the five displayed metadata fields are required to be strings when present.
- Text.Upper: upper-cases ASCII letters only. Python's full Unicode case mapping is not modelled.
- Json.Json: numbers are integers, because no number is rendered by the modelled code. Floating point is not modelled.
- IngestSpecs.IngestOpenApiSpecs: stops before indexing, and Chroma's handling of list-valued metadata is not modelled.

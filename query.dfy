/** The command-line query script: the display of one search result and the
    decisions of its entry point. The vector store is a parameter. */
module Query {
  import opened Dicts
  import opened Json
  import opened Text
  import opened Documents
  import opened Seqs

  /** The separator lines are 80 copies of one character. */
  const RuleWidth: nat := 80

  function Rule(c: char): (r: string)
    ensures |r| == RuleWidth
    ensures forall i :: 0 <= i < |r| ==> r[i] == c
  {
    Repeat(c, RuleWidth)
  }

  /** The metadata keys shown on their own lines hold strings when present. */
  predicate Displayable(md: seq<(string, Json)>)
  {
    && TextOrAbsent(md, "method")
    && TextOrAbsent(md, "path")
    && TextOrAbsent(md, "operation_id")
    && TextOrAbsent(md, "api_title")
    && TextOrAbsent(md, "api_version")
  }

  /** metadata.get(key, 'N/A'). */
  function Shown(md: seq<(string, Json)>, key: string): (r: string)
    requires TextOrAbsent(md, key)
    ensures !Has(md, key) ==> r == "N/A"
    ensures Has(md, key) ==> Get(md, key) == Some(Str(r))
  {
    GetText(md, key, "N/A")
  }

  /** The strings ', '.join iterates over, or None where it raises TypeError:
      a list of strings, the characters of a string, the keys of a dict. */
  function JoinableItems(tags: Json): (r: Option<seq<string>>)
    ensures tags.Arr? ==> (r.Some? <==> forall i :: 0 <= i < |tags.items| ==> tags.items[i].Str?)
    ensures r.Some? && tags.Arr? ==> |r.value| == |tags.items| && forall i :: 0 <= i < |r.value| ==> tags.items[i] == Str(r.value[i])
    ensures tags.Str? ==> r.Some? && |r.value| == |tags.s| && forall i :: 0 <= i < |tags.s| ==> r.value[i] == [tags.s[i]]
    ensures tags.Obj? ==> r == Some(Keys(tags.members))
    ensures (tags.Null? || tags.Bool? || tags.Num?) ==> r.None?
  {
    match tags
    case Arr(items) =>
      if forall i :: 0 <= i < |items| ==> items[i].Str?
      then Some(seq(|items|, i requires 0 <= i < |items| && items[i].Str? => items[i].s))
      else None
    case Str(s) => Some(seq(|s|, i requires 0 <= i < |s| => [s[i]]))
    case Obj(m) => Some(Keys(m))
    case _ => None
  }

  /** ', '.join(metadata.get('tags', [])), or None for a TypeError. */
  function TagsText(md: seq<(string, Json)>): (r: Option<string>)
    ensures !Has(md, "tags") ==> r == Some("")
  {
    match JoinableItems(GetOr(md, "tags", Arr([])))
    case Some(items) => Some(Join(", ", items))
    case None => None
  }

  /** The thirteen lines of a formatted result. */
  function FormatLines(doc: Document, index: int, tags: string): seq<string>
    requires Displayable(doc.metadata)
  {
    ["\n" + Rule('='), "Result " + IntToString(index), Rule('=')]
    + FieldLines(doc.metadata, tags)
    + ["\n" + Rule('-'), "Content:", Rule('-')]
    + [doc.pageContent, Rule('=') + "\n"]
  }

  /** A formatted result has thirteen lines: a rule of '=' after a newline,
      the result number, a rule of '=', the five metadata lines, a rule of
      '-' after a newline, "Content:", a rule of '-', the page content
      verbatim, and a rule of '=' followed by a newline. */
  lemma FormatShape(doc: Document, index: int, tags: string)
    requires Displayable(doc.metadata)
    ensures var lines := FormatLines(doc, index, tags);
            && |lines| == 13
            && lines[0] == "\n" + Rule('=') && lines[1] == "Result " + IntToString(index) && lines[2] == Rule('=')
            && lines[3..8] == FieldLines(doc.metadata, tags)
            && lines[8] == "\n" + Rule('-') && lines[9] == "Content:" && lines[10] == Rule('-')
            && lines[11] == doc.pageContent && lines[12] == Rule('=') + "\n"
  {
    var lines := FormatLines(doc, index, tags);
    var fields := FieldLines(doc.metadata, tags);
    assert lines == ["\n" + Rule('='), "Result " + IntToString(index), Rule('=')] + fields
                    + (["\n" + Rule('-'), "Content:", Rule('-')] + [doc.pageContent, Rule('=') + "\n"]);
    assert lines[3..8] == fields;
  }

  /** format_document: the lines joined with newlines, or None when joining
      the tags raises. */
  function FormatDocument(doc: Document, index: int): (r: Option<string>)
    requires Displayable(doc.metadata)
    ensures r.Some? <==> TagsText(doc.metadata).Some?
  {
    match TagsText(doc.metadata)
    case Some(tags) => Some(Join("\n", FormatLines(doc, index, tags)))
    case None => None
  }

  /** The five metadata lines of a result: method, path, operation id, the
      API line and the tags line. */
  function FieldLines(md: seq<(string, Json)>, tags: string): seq<string>
    requires Displayable(md)
  {
    [ "Method: " + Shown(md, "method"),
      "Path: " + Shown(md, "path"),
      "Operation ID: " + Shown(md, "operation_id"),
      "API: " + Shown(md, "api_title") + " v" + Shown(md, "api_version"),
      "Tags: " + tags ]
  }

  lemma JoinTwo(sep: string, x: string, y: string)
    ensures Join(sep, [x, y]) == x + sep + y
  {
    assert [x, y][1..] == [y];
  }

  lemma JoinThree(sep: string, x: string, y: string, z: string)
    ensures Join(sep, [x, y, z]) == x + sep + y + sep + z
  {
    assert [x, y, z][1..] == [y, z];
    JoinTwo(sep, y, z);
  }

  /** The formatted result as one string: a rule of '=' after a newline, the
      result number, another rule, the metadata lines, a newline and a rule
      of '-', "Content:", a rule of '-', the page content verbatim, and a
      closing rule of '=' followed by a newline. */
  lemma FormattedText(doc: Document, index: int)
    requires Displayable(doc.metadata) && TagsText(doc.metadata).Some?
    ensures FormatDocument(doc, index).value
         == "\n" + Rule('=') + "\n" + "Result " + IntToString(index) + "\n" + Rule('=') + "\n"
            + Join("\n", FieldLines(doc.metadata, TagsText(doc.metadata).value))
            + "\n" + "\n" + Rule('-') + "\n" + "Content:" + "\n" + Rule('-') + "\n"
            + doc.pageContent + "\n" + Rule('=') + "\n"
  {
    var tags := TagsText(doc.metadata).value;
    JoinBlock(Rule('='), Rule('-'), IntToString(index), FieldLines(doc.metadata, tags), doc.pageContent);
  }

  lemma JoinBlock(eq: string, dash: string, number: string, fields: seq<string>, content: string)
    requires fields != []
    ensures Join("\n", ["\n" + eq, "Result " + number, eq] + fields + ["\n" + dash, "Content:", dash] + [content, eq + "\n"])
         == "\n" + eq + "\n" + "Result " + number + "\n" + eq + "\n" + Join("\n", fields)
            + "\n" + "\n" + dash + "\n" + "Content:" + "\n" + dash + "\n" + content + "\n" + eq + "\n"
  {
    var a := ["\n" + eq, "Result " + number, eq];
    var b := ["\n" + dash, "Content:", dash];
    var c := [content, eq + "\n"];
    JoinChunks("\n", a, fields, b, c);
    JoinThree("\n", a[0], a[1], a[2]);
    JoinThree("\n", b[0], b[1], b[2]);
    JoinTwo("\n", c[0], c[1]);
    Regroup(eq, dash, number, Join("\n", fields), content);
  }

  lemma JoinChunks(sep: string, a: seq<string>, f: seq<string>, b: seq<string>, c: seq<string>)
    requires a != [] && f != [] && b != [] && c != []
    ensures Join(sep, a + f + b + c) == Join(sep, a) + sep + Join(sep, f) + sep + Join(sep, b) + sep + Join(sep, c)
  {
    JoinAppend(sep, a + f + b, c);
    JoinAppend(sep, a + f, b);
    JoinAppend(sep, a, f);
  }

  lemma Regroup(eq: string, dash: string, number: string, F: string, content: string)
    ensures ("\n" + eq + "\n" + ("Result " + number) + "\n" + eq) + "\n" + F + "\n"
            + ("\n" + dash + "\n" + "Content:" + "\n" + dash) + "\n" + (content + "\n" + (eq + "\n"))
         == "\n" + eq + "\n" + "Result " + number + "\n" + eq + "\n" + F
            + "\n" + "\n" + dash + "\n" + "Content:" + "\n" + dash + "\n" + content + "\n" + eq + "\n"
  {
    var n := "\n";
    var A := "\n" + eq + n + ("Result " + number) + n + eq;
    assert A == "\n" + eq + n + "Result " + number + n + eq;
    var P := A + n + F + n;
    AppendAssoc(P, n + dash + n + "Content:" + n, dash);
    RegroupTail(P, n + dash, n + "Content:", n);
    AppendAssoc(P, n, dash);
    AppendAssoc(P + n + dash, n, "Content:");
    var Q := P + n + dash + n + "Content:" + n + dash + n;
    AppendAssoc(Q, content + n, eq + n);
    AppendAssoc(Q, content, n);
    AppendAssoc(Q + content + n, eq, n);
  }

  /** Metadata without the shown keys renders "N/A" in each of their places
      and an empty tags line. */
  lemma MissingMetadata(md: seq<(string, Json)>)
    requires !Has(md, "method") && !Has(md, "path") && !Has(md, "operation_id")
    requires !Has(md, "api_title") && !Has(md, "api_version") && !Has(md, "tags")
    ensures Displayable(md)
    ensures TagsText(md) == Some("")
    ensures FieldLines(md, TagsText(md).value)
         == ["Method: N/A", "Path: N/A", "Operation ID: N/A", "API: N/A vN/A", "Tags: "]
  {
    assert "Method: " + "N/A" == "Method: N/A";
    assert "Path: " + "N/A" == "Path: N/A";
    assert "Operation ID: " + "N/A" == "Operation ID: N/A";
    assert "API: " + "N/A" + " v" + "N/A" == "API: N/A vN/A";
    assert "Tags: " + "" == "Tags: ";
  }

  /** A list of string tags is shown joined by ", ", in order. */
  lemma {:induction false} TagsOfStrings(md: seq<(string, Json)>, tags: seq<string>)
    requires Get(md, "tags") == Some(Arr(seq(|tags|, i requires 0 <= i < |tags| => Str(tags[i]))))
    ensures TagsText(md) == Some(Join(", ", tags))
  {
    var items := seq(|tags|, i requires 0 <= i < |tags| => Str(tags[i]));
    var r := JoinableItems(Arr(items));
    assert r.Some?;
    assert r.value == tags;
  }

  /** A result whose tags are the empty list has an empty tags line. */
  lemma EmptyTagsFormat(doc: Document, index: int)
    requires Displayable(doc.metadata) && Get(doc.metadata, "tags") == Some(Arr([]))
    ensures TagsText(doc.metadata) == Some("")
    ensures FormatDocument(doc, index) == Some(Join("\n", FormatLines(doc, index, "")))
  {
    assert GetOr(doc.metadata, "tags", Arr([])) == Arr([]);
    assert JoinableItems(Arr([])) == Some([]);
  }

  /** A result whose tags are a list is formatted exactly when every tag is
      a string. */
  lemma ListTagsFormat(doc: Document, index: int, items: seq<Json>)
    requires Displayable(doc.metadata) && Get(doc.metadata, "tags") == Some(Arr(items))
    ensures FormatDocument(doc, index).Some? <==> forall i :: 0 <= i < |items| ==> items[i].Str?
  {
    assert GetOr(doc.metadata, "tags", Arr([])) == Arr(items);
  }

  // ---------------------------------------------------------------------
  // The entry point.
  // ---------------------------------------------------------------------

  /** The printed blocks, in order, up to the first result that cannot be
      formatted; complete when there is none. */
  datatype Rendering = Rendering(blocks: seq<string>, complete: bool)

  /** Printing a list of formatted results until the first failure. */
  function RenderBlocks(formatted: seq<Option<string>>): Rendering
  {
    if formatted == [] then Rendering([], true)
    else
      match formatted[0]
      case None => Rendering([], false)
      case Some(block) =>
        var rest := RenderBlocks(formatted[1..]);
        Rendering([block] + rest.blocks, rest.complete)
  }

  /** format_document extended to every document: None outside the
      Displayable documents, which it is never applied to. */
  function FormatAny(doc: Document, index: int): Option<string>
  {
    if Displayable(doc.metadata) then FormatDocument(doc, index) else None
  }

  lemma FormatAnyDisplayable(doc: Document, index: int)
    requires Displayable(doc.metadata)
    ensures FormatAny(doc, index) == FormatDocument(doc, index)
  {
  }

  /** Each result formatted with its number, counting from first. */
  function Formatted(docs: seq<Document>, first: int): (fs: seq<Option<string>>)
    requires forall i :: 0 <= i < |docs| ==> Displayable(docs[i].metadata)
    ensures |fs| == |docs|
  {
    Numbered(docs, FormatAny, first)
  }

  lemma FormattedSome(docs: seq<Document>, first: int)
    requires forall i :: 0 <= i < |docs| ==> Displayable(docs[i].metadata)
    ensures forall i :: 0 <= i < |docs| ==> (Formatted(docs, first)[i].Some? <==> TagsText(docs[i].metadata).Some?)
  {
    forall i | 0 <= i < |docs|
      ensures Formatted(docs, first)[i].Some? <==> TagsText(docs[i].metadata).Some?
    {
      FormattedAt(docs, first, i);
    }
  }

  /** The loop over enumerate(results, first). */
  function RenderResults(docs: seq<Document>, first: int): (r: Rendering)
    requires forall i :: 0 <= i < |docs| ==> Displayable(docs[i].metadata)
    ensures |r.blocks| <= |docs|
    ensures r.complete ==> |r.blocks| == |docs|
  {
    var fs := Formatted(docs, first);
    RenderBlocksPrefix(fs);
    RenderBlocks(fs)
  }

  /** The blocks printed are the leading successfully formatted results;
      printing stops exactly at the first failure and is complete exactly
      when there is none. */
  lemma {:induction false} RenderBlocksPrefix(formatted: seq<Option<string>>)
    ensures var r := RenderBlocks(formatted);
            && |r.blocks| <= |formatted|
            && (forall i :: 0 <= i < |r.blocks| ==> formatted[i] == Some(r.blocks[i]))
            && (r.complete ==> |r.blocks| == |formatted|)
            && (!r.complete ==> |r.blocks| < |formatted| && formatted[|r.blocks|].None?)
            && (r.complete <==> forall i :: 0 <= i < |formatted| ==> formatted[i].Some?)
  {
    if formatted != [] && formatted[0].Some? {
      var tail := formatted[1..];
      var rest := RenderBlocks(tail);
      RenderBlocksPrefix(tail);
      var r := RenderBlocks(formatted);
      assert r.blocks == [formatted[0].value] + rest.blocks;
      forall i | 0 < i < |r.blocks| ensures formatted[i] == Some(r.blocks[i]) {
        assert tail[i - 1] == formatted[i];
        assert r.blocks[i] == rest.blocks[i - 1];
      }
      if !rest.complete {
        assert tail[|rest.blocks|] == formatted[|r.blocks|];
      }
      if forall i :: 0 <= i < |tail| ==> tail[i].Some? {
        forall i | 0 < i < |formatted| ensures formatted[i].Some? {
          assert tail[i - 1] == formatted[i];
        }
      }
    }
  }

  /** Numbering: the i-th block printed is result i formatted with number
      first + i. */
  lemma RenderNumbering(docs: seq<Document>, first: int)
    requires forall i :: 0 <= i < |docs| ==> Displayable(docs[i].metadata)
    ensures var r := RenderResults(docs, first);
            && |r.blocks| <= |docs|
            && (forall i :: 0 <= i < |r.blocks| ==> FormatDocument(docs[i], first + i) == Some(r.blocks[i]))
            && (r.complete ==> |r.blocks| == |docs|)
  {
    var fs := Formatted(docs, first);
    var r := RenderBlocks(fs);
    RenderBlocksPrefix(fs);
    forall i | 0 <= i < |r.blocks| ensures FormatDocument(docs[i], first + i) == Some(r.blocks[i]) {
      FormattedAt(docs, first, i);
    }
  }

  lemma FormattedAt(docs: seq<Document>, first: int, i: nat)
    requires forall i :: 0 <= i < |docs| ==> Displayable(docs[i].metadata)
    requires i < |docs|
    ensures Formatted(docs, first)[i] == FormatDocument(docs[i], first + i)
  {
    NumberedAt(docs, FormatAny, first, i);
    FormatAnyDisplayable(docs[i], first + i);
  }

  /** When printing stops early, it stops at a result whose tags cannot be
      joined; it is complete exactly when every result's tags can be joined. */
  lemma RenderStops(docs: seq<Document>, first: int)
    requires forall i :: 0 <= i < |docs| ==> Displayable(docs[i].metadata)
    ensures var r := RenderResults(docs, first);
            && (!r.complete ==> |r.blocks| < |docs| && TagsText(docs[|r.blocks|].metadata).None?)
            && (r.complete <==> forall i :: 0 <= i < |docs| ==> TagsText(docs[i].metadata).Some?)
  {
    var fs := Formatted(docs, first);
    var r := RenderBlocks(fs);
    RenderBlocksPrefix(fs);
    FormattedSome(docs, first);
  }

  /** How a run of the script ends. */
  datatype Outcome =
    | Usage
    | StoreUnavailable(query: string)
    | NoResults(query: string)
    | Listed(query: string, blocks: seq<string>)
    | FormatFailed(query: string, blocks: seq<string>)

  /** The process exit status: 1 for the usage message, a missing or broken
      vector store and an uncaught TypeError; 0 otherwise. */
  function ExitStatus(o: Outcome): (status: int)
    ensures status == 0 || status == 1
    ensures status == 0 <==> o.NoResults? || o.Listed?
  {
    match o
    case Usage => 1
    case StoreUnavailable(_) => 1
    case NoResults(_) => 0
    case Listed(_, _) => 0
    case FormatFailed(_, _) => 1
  }

  /** The number of results requested from the store. */
  const ResultCount: nat := 5

  /** The results the store returns for the query, when it searches. */
  predicate DisplayableResults(argv: seq<string>, search: (string, nat) -> Option<seq<Document>>)
  {
    |argv| >= 2 ==>
      match search(Join(" ", argv[1..]), ResultCount)
      case None => true
      case Some(results) => forall i :: 0 <= i < |results| ==> Displayable(results[i].metadata)
  }

  /** main: argv[0] is the script name; the query is the remaining
      arguments joined by single spaces; search stands for loading the store
      and its similarity search (None when the store is missing or cannot be
      loaded). */
  function Main(argv: seq<string>, search: (string, nat) -> Option<seq<Document>>): (o: Outcome)
    requires DisplayableResults(argv, search)
    ensures o.Usage? <==> |argv| < 2
    ensures !o.Usage? ==> o.query == Join(" ", argv[1..])
    ensures o.NoResults? <==> |argv| >= 2 && search(Join(" ", argv[1..]), ResultCount) == Some([])
    ensures o.StoreUnavailable? <==> |argv| >= 2 && search(Join(" ", argv[1..]), ResultCount).None?
  {
    if |argv| < 2 then Usage
    else
      var query := Join(" ", argv[1..]);
      match search(query, ResultCount)
      case None => StoreUnavailable(query)
      case Some(results) =>
        if results == [] then NoResults(query)
        else
          var r := RenderResults(results, 1);
          if r.complete then Listed(query, r.blocks) else FormatFailed(query, r.blocks)
  }

  /** With results, they are printed numbered 1..n in the order returned;
      the run succeeds exactly when every result can be formatted. */
  lemma MainListing(argv: seq<string>, search: (string, nat) -> Option<seq<Document>>)
    requires DisplayableResults(argv, search)
    requires |argv| >= 2 && search(Join(" ", argv[1..]), ResultCount).Some?
    ensures var results := search(Join(" ", argv[1..]), ResultCount).value;
            var o := Main(argv, search);
            && (o.Listed? ==> |o.blocks| == |results|)
            && ((o.Listed? || o.FormatFailed?) ==>
                  |o.blocks| <= |results| &&
                  forall i :: 0 <= i < |o.blocks| ==> FormatDocument(results[i], 1 + i) == Some(o.blocks[i]))
            && (o.Listed? <==> results != [] && forall i :: 0 <= i < |results| ==> TagsText(results[i].metadata).Some?)
            && (ExitStatus(o) == 0 <==> o.Listed? || results == [])
  {
    RenderNumbering(search(Join(" ", argv[1..]), ResultCount).value, 1);
    RenderStops(search(Join(" ", argv[1..]), ResultCount).value, 1);
  }

  /** When no argument contains a space, the query splits back into the
      arguments. */
  lemma QueryRecoversArguments(argv: seq<string>)
    requires |argv| >= 2
    requires forall i :: 1 <= i < |argv| ==> ' ' !in argv[i]
    ensures Split(Join(" ", argv[1..]), ' ') == argv[1..]
  {
    SplitJoin(argv[1..], ' ');
  }
}

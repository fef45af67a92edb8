/** The walk over a specification's `paths` map and the concatenation of the
    documents of all specification files, from the ingestion script. */
module IngestSpecs {
  import opened Dicts
  import opened Json
  import opened Documents
  import opened Seqs
  import opened Text
  import opened Ingest

  /** The HTTP methods looked up in every path item, in the order tried. */
  const HttpMethods: seq<string> := ["get", "post", "put", "delete", "patch", "options", "head"]

  /** The operations a path item holds under the methods in ms are well formed. */
  predicate OperationsValid(item: Json, ms: seq<string>)
    requires item.Obj?
  {
    forall m :: m in ms && Has(item.members, m) ==> ValidOperation(Get(item.members, m).value)
  }

  /** Python's `m in path_item`: a key of a dict, an item of a list, a
      substring of a string. On any other value `in` raises TypeError;
      such a value holds nothing here, and ValidPathItem excludes it. */
  predicate InPathItem(item: Json, m: string)
    ensures item.Obj? ==> (InPathItem(item, m) <==> exists i :: 0 <= i < |item.members| && item.members[i].0 == m)
    ensures item.Arr? ==> (InPathItem(item, m) <==> exists i :: 0 <= i < |item.items| && item.items[i] == Str(m))
    ensures item.Str? ==> (InPathItem(item, m) <==> Contains(item.s, m))
    ensures item.Str? && InPathItem(item, m) ==> |m| <= |item.s|
    ensures item.Null? || item.Bool? || item.Num? ==> !InPathItem(item, m)
  {
    match item
    case Obj(members) => Has(members, m)
    case Arr(items) => Str(m) in items
    case Str(s) => Contains(s, m)
    case _ => false
  }

  /** A path item the walk reads without raising: a dict whose operations
      are well formed, or a list or string holding none of the methods, so
      that `path_item[method]` is never reached. */
  predicate ValidPathItem(item: Json)
  {
    || (IsDict(item) && OperationsValid(item, HttpMethods))
    || ((item.Arr? || item.Str?) && forall m :: m in HttpMethods ==> !InPathItem(item, m))
  }

  /** A specification as the walk reads it: a dict whose `info`, if present,
      is an info object and whose `paths`, if present, maps paths to path items. */
  predicate ValidSpec(spec: Json)
  {
    && IsDict(spec)
    && (match Get(spec.members, "info")
        case None => true
        case Some(info) => ValidInfo(info))
    && (match Get(spec.members, "paths")
        case None => true
        case Some(paths) => IsDict(paths) && forall i :: 0 <= i < |paths.members| ==> ValidPathItem(paths.members[i].1))
  }

  /** spec.get('info', {}). */
  function InfoOf(spec: Json): (info: Json)
    requires ValidSpec(spec)
    ensures ValidInfo(info)
    ensures Has(spec.members, "info") ==> Get(spec.members, "info") == Some(info)
    ensures !Has(spec.members, "info") ==> info == Obj([])
  {
    GetOr(spec.members, "info", Obj([]))
  }

  /** spec.get('paths', {}), as its list of (path, path item) entries. */
  function PathsOf(spec: Json): (paths: seq<(string, Json)>)
    requires ValidSpec(spec)
    ensures forall i :: 0 <= i < |paths| ==> ValidPathItem(paths[i].1)
    ensures Has(spec.members, "paths") ==> Get(spec.members, "paths") == Some(Obj(paths))
    ensures !Has(spec.members, "paths") ==> paths == []
  {
    match Get(spec.members, "paths")
    case Some(v) => v.members
    case None => []
  }

  /** The methods of ms that the path item has, in the order of ms. */
  function PresentMethods(item: Json, ms: seq<string>): (r: seq<string>)
    requires item.Obj?
    ensures forall x :: x in r ==> x in ms && Has(item.members, x)
  {
    if ms == [] then []
    else
      var last := ms[|ms| - 1];
      PresentMethods(item, ms[..|ms| - 1]) + (if Has(item.members, last) then [last] else [])
  }

  /** The document of the operation a path item has under method m. */
  function DocumentFor(path: string, item: Json, info: Json, m: string): Document
    requires IsDict(item) && Get(item.members, m).Some? && ValidOperation(Get(item.members, m).value) && ValidInfo(info)
  {
    EndpointDocument(path, m, Get(item.members, m).value, info)
  }

  /** The documents of one path item for the methods ms, in the order of ms. */
  function MethodDocuments(path: string, item: Json, info: Json, ms: seq<string>): seq<Document>
    requires IsDict(item) && OperationsValid(item, ms) && ValidInfo(info)
  {
    if ms == [] then []
    else
      var last := ms[|ms| - 1];
      MethodDocuments(path, item, info, ms[..|ms| - 1])
      + (if Has(item.members, last) then [DocumentFor(path, item, info, last)] else [])
  }

  /** The documents of one path item: those of its methods when it is a
      dict, and none when it is a list or string. */
  function ItemDocuments(path: string, item: Json, info: Json): seq<Document>
    requires ValidPathItem(item) && ValidInfo(info)
  {
    if item.Obj? then MethodDocuments(path, item, info, HttpMethods) else []
  }

  /** The documents of the path entries, path by path. */
  function PathDocuments(paths: seq<(string, Json)>, info: Json): seq<Document>
    requires forall i :: 0 <= i < |paths| ==> ValidPathItem(paths[i].1)
    requires ValidInfo(info)
  {
    if paths == [] then []
    else
      var last := paths[|paths| - 1];
      assert ValidPathItem(paths[|paths| - 1].1);
      PathDocuments(paths[..|paths| - 1], info) + ItemDocuments(last.0, last.1, info)
  }

  /** What process_openapi_spec returns. */
  function SpecDocuments(spec: Json): (docs: seq<Document>)
    requires ValidSpec(spec)
    ensures !Has(spec.members, "paths") ==> docs == []
  {
    PathDocuments(PathsOf(spec), InfoOf(spec))
  }

  /** process_openapi_spec: for each path, for each method in the fixed
      order, build the document of the operation the path item has under it. */
  method ProcessOpenApiSpec(spec: Json) returns (documents: seq<Document>)
    requires ValidSpec(spec)
    ensures documents == SpecDocuments(spec)
  {
    documents := [];
    var info := InfoOf(spec);
    var paths := PathsOf(spec);
    for i := 0 to |paths|
      invariant documents == PathDocuments(paths[..i], info)
    {
      TakeSnoc(paths, i);
      PathsPrefixValid(paths, i);
      PathDocumentsSnoc(paths[..i], paths[i], info);
      documents := AppendPathItem(documents, paths[i].0, paths[i].1, info);
    }
    assert paths[..|paths|] == paths;
  }

  /** The documents of one more path entry follow those of the entries before it. */
  lemma PathDocumentsSnoc(front: seq<(string, Json)>, last: (string, Json), info: Json)
    requires forall k :: 0 <= k < |front| ==> ValidPathItem(front[k].1)
    requires ValidPathItem(last.1) && ValidInfo(info)
    ensures forall k :: 0 <= k < |front + [last]| ==> ValidPathItem((front + [last])[k].1)
    ensures PathDocuments(front + [last], info)
         == PathDocuments(front, info) + ItemDocuments(last.0, last.1, info)
  {
    var paths := front + [last];
    assert paths[..|paths| - 1] == front;
  }

  lemma PathsPrefixValid(paths: seq<(string, Json)>, n: nat)
    requires forall k :: 0 <= k < |paths| ==> ValidPathItem(paths[k].1)
    requires n <= |paths|
    ensures forall k :: 0 <= k < n ==> ValidPathItem(paths[..n][k].1)
  {
  }

  /** The inner loop of process_openapi_spec: appends the documents of one
      path item, trying the methods in the fixed order. */
  method AppendPathItem(documents: seq<Document>, path: string, pathItem: Json, info: Json)
    returns (result: seq<Document>)
    requires ValidPathItem(pathItem) && ValidInfo(info)
    ensures result == documents + ItemDocuments(path, pathItem, info)
  {
    result := documents;
    for j := 0 to |HttpMethods|
      invariant result == documents + ItemDocumentsUpTo(path, pathItem, info, j)
    {
      var httpMethod := HttpMethods[j];
      PathItemStep(path, pathItem, info, j);
      ghost var before := ItemDocumentsUpTo(path, pathItem, info, j);
      if InPathItem(pathItem, httpMethod) {
        var operation := Get(pathItem.members, httpMethod).value;
        var doc := CreateEndpointDocument(path, httpMethod, operation, info);
        AppendAssoc(documents, before, [doc]);
        result := result + [doc];
      } else {
        assert before + [] == before;
      }
    }
    assert HttpMethods[..|HttpMethods|] == HttpMethods;
  }

  /** The documents of a path item for the first n of the seven methods. */
  function ItemDocumentsUpTo(path: string, item: Json, info: Json, n: nat): seq<Document>
    requires ValidPathItem(item) && ValidInfo(info) && n <= |HttpMethods|
  {
    if item.Obj? then
      OperationsValidPrefix(item, HttpMethods, n);
      MethodDocuments(path, item, info, HttpMethods[..n])
    else []
  }

  /** One step of the inner loop: a method the path item holds (only a dict
      can hold one) names a well-formed operation, whose document follows
      those of the methods before it. */
  lemma PathItemStep(path: string, item: Json, info: Json, j: nat)
    requires ValidPathItem(item) && ValidInfo(info) && j < |HttpMethods|
    ensures InPathItem(item, HttpMethods[j]) ==> item.Obj? && HasOperations(item, [HttpMethods[j]])
    ensures ItemDocumentsUpTo(path, item, info, j + 1)
         == ItemDocumentsUpTo(path, item, info, j)
            + (if InPathItem(item, HttpMethods[j]) then [DocumentFor(path, item, info, HttpMethods[j])] else [])
  {
    if item.Obj? {
      DictItemStep(path, item, info, j);
    } else {
      OtherItemStep(item, j);
    }
  }

  lemma DictItemStep(path: string, item: Json, info: Json, j: nat)
    requires IsDict(item) && OperationsValid(item, HttpMethods) && ValidInfo(info) && j < |HttpMethods|
    ensures InPathItem(item, HttpMethods[j]) ==> HasOperations(item, [HttpMethods[j]])
    ensures ItemDocumentsUpTo(path, item, info, j + 1)
         == ItemDocumentsUpTo(path, item, info, j)
            + (if InPathItem(item, HttpMethods[j]) then [DocumentFor(path, item, info, HttpMethods[j])] else [])
  {
    assert HttpMethods[j] in HttpMethods;
    assert InPathItem(item, HttpMethods[j]) == Has(item.members, HttpMethods[j]);
    MethodDocumentsSnoc(path, item, info, HttpMethods, j);
    var before := MethodDocuments(path, item, info, HttpMethods[..j]);
    assert ItemDocumentsUpTo(path, item, info, j) == before;
    assert ItemDocumentsUpTo(path, item, info, j + 1) == MethodDocuments(path, item, info, HttpMethods[..j + 1]);
  }

  /** A list or string path item holds none of the methods. */
  lemma OtherItemStep(item: Json, j: nat)
    requires ValidPathItem(item) && !item.Obj? && j < |HttpMethods|
    ensures !InPathItem(item, HttpMethods[j])
  {
    assert HttpMethods[j] in HttpMethods;
  }

  /** The documents for one more method follow those for the methods before it. */
  lemma MethodDocumentsSnoc(path: string, item: Json, info: Json, ms: seq<string>, j: nat)
    requires IsDict(item) && OperationsValid(item, ms) && ValidInfo(info) && j < |ms|
    ensures OperationsValid(item, ms[..j]) && OperationsValid(item, ms[..j + 1])
    ensures MethodDocuments(path, item, info, ms[..j + 1])
         == MethodDocuments(path, item, info, ms[..j])
            + (if Has(item.members, ms[j]) then [DocumentFor(path, item, info, ms[j])] else [])
  {
    OperationsValidPrefix(item, ms, j);
    OperationsValidPrefix(item, ms, j + 1);
    assert ms[..j + 1][..j] == ms[..j];
    assert ms[..j + 1][j] == ms[j];
  }

  lemma OperationsValidPrefix(item: Json, ms: seq<string>, n: nat)
    requires item.Obj? && OperationsValid(item, ms) && n <= |ms|
    ensures OperationsValid(item, ms[..n])
  {
    forall m | m in ms[..n] ensures m in ms {
    }
  }

  // ---------------------------------------------------------------------
  // Properties of the walk.
  // ---------------------------------------------------------------------

  predicate Distinct(ms: seq<string>)
  {
    forall i, j :: 0 <= i < j < |ms| ==> ms[i] != ms[j]
  }

  /** The position of x in ms. */
  function IndexOf(ms: seq<string>, x: string): (k: nat)
    requires x in ms
    ensures k < |ms| && ms[k] == x
    ensures forall i :: 0 <= i < k ==> ms[i] != x
  {
    if ms[0] == x then 0 else 1 + IndexOf(ms[1..], x)
  }

  lemma IndexOfDistinct(ms: seq<string>, k: nat)
    requires Distinct(ms) && k < |ms|
    ensures IndexOf(ms, ms[k]) == k
  {
  }

  lemma IndexOfPrefix(ms: seq<string>, n: nat, x: string)
    requires n <= |ms| && x in ms[..n]
    ensures IndexOf(ms, x) == IndexOf(ms[..n], x)
  {
    var k := IndexOf(ms[..n], x);
    assert ms[k] == x;
  }

  /** A method is kept exactly when the path item has it, and the kept
      methods keep the order of ms. */
  lemma {:induction false} PresentMethodsExact(item: Json, ms: seq<string>)
    requires item.Obj? && Distinct(ms)
    ensures var r := PresentMethods(item, ms);
            && (forall x :: x in r <==> x in ms && Has(item.members, x))
            && (forall i, j :: 0 <= i < j < |r| ==> IndexOf(ms, r[i]) < IndexOf(ms, r[j]))
  {
    if ms != [] {
      var n := |ms| - 1;
      var last := ms[n];
      var front := PresentMethods(item, ms[..n]);
      var r := PresentMethods(item, ms);
      PresentMethodsExact(item, ms[..n]);
      assert ms == ms[..n] + [last];
      forall x | x in ms && Has(item.members, x) ensures x in r {
        if x != last {
          assert x in ms[..n];
        }
      }
      forall i, j | 0 <= i < j < |r| ensures IndexOf(ms, r[i]) < IndexOf(ms, r[j]) {
        assert r[i] in ms[..n] by {
          assert r[i] == front[i];
        }
        IndexOfPrefix(ms, n, r[i]);
        if j < |front| {
          assert r[j] == front[j];
          IndexOfPrefix(ms, n, r[j]);
        } else {
          assert r[j] == last;
          IndexOfDistinct(ms, n);
        }
      }
    }
  }

  lemma HttpMethodsDistinct()
    ensures Distinct(HttpMethods)
  {
  }

  /** A set of strings given by a list without repeats has as many elements
      as the list. */
  lemma {:induction false} DistinctCard(s: seq<string>)
    requires Distinct(s)
    ensures |set x | x in s| == |s|
  {
    if s != [] {
      var n := |s| - 1;
      DistinctCard(s[..n]);
      assert (set x | x in s) == (set x | x in s[..n]) + {s[n]} by {
        assert s == s[..n] + [s[n]];
      }
      assert s[n] !in s[..n];
    }
  }

  /** How many of the seven methods a path item has. */
  function MethodCount(item: Json): nat
  {
    if item.Obj? then |set m | m in HttpMethods && Has(item.members, m)| else 0
  }

  /** The methods of pm all name operations of the path item. */
  predicate HasOperations(item: Json, pm: seq<string>)
    requires item.Obj?
  {
    forall m :: m in pm ==> Get(item.members, m).Some? && ValidOperation(Get(item.members, m).value)
  }

  /** The document built for each method that names an operation of the
      path item. */
  function Builder(path: string, item: Json, info: Json): string --> Document
  {
    m requires IsDict(item) && ValidInfo(info) && HasOperations(item, [m]) => DocumentFor(path, item, info, m)
  }

  /** The documents of the operations under the methods pm, in that order. */
  function DocumentsFor(path: string, item: Json, info: Json, pm: seq<string>): (docs: seq<Document>)
    requires IsDict(item) && ValidInfo(info) && HasOperations(item, pm)
    ensures |docs| == |pm|
  {
    BuilderApplies(path, item, info, pm);
    MapSeq(Builder(path, item, info), pm)
  }

  lemma BuilderApplies(path: string, item: Json, info: Json, pm: seq<string>)
    requires IsDict(item) && ValidInfo(info) && HasOperations(item, pm)
    ensures forall i :: 0 <= i < |pm| ==> Builder(path, item, info).requires(pm[i])
  {
    forall i | 0 <= i < |pm| ensures HasOperations(item, [pm[i]]) {
      assert pm[i] in pm;
    }
  }

  /** The documents for one more method follow those of the methods before it. */
  lemma DocumentsForSnoc(path: string, item: Json, info: Json, pm: seq<string>, last: string)
    requires IsDict(item) && ValidInfo(info) && HasOperations(item, pm + [last])
    ensures HasOperations(item, pm)
    ensures DocumentsFor(path, item, info, pm + [last])
         == DocumentsFor(path, item, info, pm) + [DocumentFor(path, item, info, last)]
  {
    assert (pm + [last])[..|pm|] == pm;
    HasOperationsPrefix(item, pm + [last], |pm|);
    assert HasOperations(item, [last]) by {
      assert last in pm + [last];
    }
    BuilderApplies(path, item, info, pm);
    MapSeqSnoc(Builder(path, item, info), pm, last);
  }

  /** The j-th document is the one built for the j-th method. */
  lemma DocumentsForAt(path: string, item: Json, info: Json, pm: seq<string>, j: nat)
    requires IsDict(item) && ValidInfo(info) && HasOperations(item, pm) && j < |pm|
    ensures HasOperations(item, [pm[j]])
    ensures DocumentsFor(path, item, info, pm)[j] == DocumentFor(path, item, info, pm[j])
  {
    BuilderApplies(path, item, info, pm);
    MapSeqAt(Builder(path, item, info), pm, j);
  }

  lemma HasOperationsPrefix(item: Json, pm: seq<string>, n: nat)
    requires item.Obj? && HasOperations(item, pm) && n <= |pm|
    ensures HasOperations(item, pm[..n])
  {
    forall m | m in pm[..n] ensures m in pm {
    }
  }

  /** The documents of a path item are those of the methods it has. */
  lemma {:induction false} MethodDocumentsAsPresent(path: string, item: Json, info: Json, ms: seq<string>)
    requires IsDict(item) && OperationsValid(item, ms) && ValidInfo(info)
    ensures HasOperations(item, PresentMethods(item, ms))
    ensures MethodDocuments(path, item, info, ms) == DocumentsFor(path, item, info, PresentMethods(item, ms))
  {
    if ms != [] {
      var n := |ms| - 1;
      var last := ms[n];
      OperationsValidPrefix(item, ms, n);
      MethodDocumentsAsPresent(path, item, info, ms[..n]);
      var pm0 := PresentMethods(item, ms[..n]);
      if Has(item.members, last) {
        DocumentsForSnoc(path, item, info, pm0, last);
      } else {
        assert pm0 + [] == pm0;
        assert MethodDocuments(path, item, info, ms) == MethodDocuments(path, item, info, ms[..n]) + [];
      }
    }
  }

  /** A path item yields one document per method it has, in the fixed
      method order, each built from the operation under that method. */
  lemma MethodDocumentsArePresent(path: string, item: Json, info: Json, ms: seq<string>)
    requires IsDict(item) && OperationsValid(item, ms) && ValidInfo(info)
    ensures var pm := PresentMethods(item, ms);
            var docs := MethodDocuments(path, item, info, ms);
            && |docs| == |pm|
            && forall j :: 0 <= j < |pm| ==> HasOperations(item, [pm[j]]) && docs[j] == DocumentFor(path, item, info, pm[j])
  {
    var pm := PresentMethods(item, ms);
    MethodDocumentsAsPresent(path, item, info, ms);
    forall j | 0 <= j < |pm|
      ensures HasOperations(item, [pm[j]]) && MethodDocuments(path, item, info, ms)[j] == DocumentFor(path, item, info, pm[j])
    {
      DocumentsForAt(path, item, info, pm, j);
    }
  }

  /** The number of documents of a path item is the number of the seven
      methods it has. */
  lemma PathItemCount(path: string, item: Json, info: Json)
    requires ValidPathItem(item) && ValidInfo(info)
    ensures |ItemDocuments(path, item, info)| == MethodCount(item)
  {
    if item.Obj? {
      MethodDocumentsArePresent(path, item, info, HttpMethods);
      PresentMethodCount(item);
    }
  }

  /** A path item that is not a dict is read without raising exactly when
      it is a list or string holding none of the methods; it then yields no
      documents. */
  lemma NonDictPathItem(path: string, item: Json, info: Json)
    requires !item.Obj? && ValidInfo(info)
    ensures ValidPathItem(item) <==> (item.Arr? || item.Str?) && forall m :: m in HttpMethods ==> !InPathItem(item, m)
    ensures ValidPathItem(item) ==> ItemDocuments(path, item, info) == [] && MethodCount(item) == 0
  {
  }

  /** `in` on a string path item is a substring test: "target" holds "get". */
  lemma PathItemShapes()
    ensures ValidPathItem(Arr([])) && ValidPathItem(Arr([Str("x")])) && ValidPathItem(Str(""))
    ensures !ValidPathItem(Arr([Str("get")])) && !ValidPathItem(Str("target"))
  {
    assert "get" in HttpMethods;
    assert InPathItem(Arr([Str("get")]), "get");
    assert OccursAt("target", "get", 3);
  }

  /** Distinct methods stay distinct when the absent ones are dropped. */
  lemma PresentMethodsDistinct(item: Json, ms: seq<string>)
    requires item.Obj? && Distinct(ms)
    ensures Distinct(PresentMethods(item, ms))
  {
    var pm := PresentMethods(item, ms);
    PresentMethodsExact(item, ms);
    forall i, j | 0 <= i < j < |pm| ensures pm[i] != pm[j] {
      assert IndexOf(ms, pm[i]) < IndexOf(ms, pm[j]);
    }
  }

  /** A path item whose only key is one of the methods yields just that method. */
  lemma PresentMethodsOfSingle(item: Json, ms: seq<string>, k: string)
    requires item.Obj? && Keys(item.members) == [k]
    requires Distinct(ms) && k in ms
    ensures PresentMethods(item, ms) == [k]
  {
    var r := PresentMethods(item, ms);
    PresentMethodsExact(item, ms);
    PresentMethodsDistinct(item, ms);
    assert Has(item.members, k);
    assert k in r;
    forall x | x in r ensures x == k {
      assert x in Keys(item.members);
    }
    assert (set x | x in r) == {k};
    DistinctCard(r);
  }

  /** A path item has as many of the seven methods as are kept. */
  lemma PresentMethodCount(item: Json)
    requires item.Obj?
    ensures |PresentMethods(item, HttpMethods)| == MethodCount(item)
  {
    var pm := PresentMethods(item, HttpMethods);
    HttpMethodsDistinct();
    PresentMethodsExact(item, HttpMethods);
    PresentMethodsDistinct(item, HttpMethods);
    DistinctCard(pm);
    assert (set x | x in pm) == (set m | m in HttpMethods && Has(item.members, m));
  }

  /** Keys of a path item other than the seven methods (its shared
      `parameters`, a `trace` operation, extensions) make no difference. */
  lemma {:induction false} IgnoresOtherKeys(path: string, item: Json, item': Json, info: Json, ms: seq<string>)
    requires IsDict(item) && OperationsValid(item, ms) && IsDict(item') && OperationsValid(item', ms) && ValidInfo(info)
    requires forall m :: m in ms ==> Get(item.members, m) == Get(item'.members, m)
    ensures MethodDocuments(path, item, info, ms) == MethodDocuments(path, item', info, ms)
  {
    if ms != [] {
      var n := |ms| - 1;
      assert OperationsValid(item, ms[..n]) && OperationsValid(item', ms[..n]) by {
        forall m | m in ms[..n] ensures m in ms {}
      }
      assert Has(item.members, ms[n]) == Has(item'.members, ms[n]);
      IgnoresOtherKeys(path, item, item', info, ms[..n]);
    }
  }

  /** The documents of consecutive runs of paths follow each other. */
  lemma {:induction false} PathDocumentsAppend(a: seq<(string, Json)>, b: seq<(string, Json)>, info: Json)
    requires forall i :: 0 <= i < |a| ==> ValidPathItem(a[i].1)
    requires forall i :: 0 <= i < |b| ==> ValidPathItem(b[i].1)
    requires ValidInfo(info)
    ensures forall i :: 0 <= i < |a + b| ==> ValidPathItem((a + b)[i].1)
    ensures PathDocuments(a + b, info) == PathDocuments(a, info) + PathDocuments(b, info)
  {
    var ab := a + b;
    assert forall i :: 0 <= i < |ab| ==> ValidPathItem(ab[i].1) by {
      forall i | 0 <= i < |ab| ensures ValidPathItem(ab[i].1) {
        if i >= |a| {
          assert ab[i] == b[i - |a|];
        }
      }
    }
    if b == [] {
      assert ab == a;
    } else {
      var n := |b| - 1;
      var front := b[..n];
      PathsPrefixValid(b, n);
      PathDocumentsAppend(a, front, info);
      assert b == front + [b[n]];
      assert ab == (a + front) + [b[n]];
      PathDocumentsSnoc(a + front, b[n], info);
      PathDocumentsSnoc(front, b[n], info);
      AppendAssoc(PathDocuments(a, info), PathDocuments(front, info),
        ItemDocuments(b[n].0, b[n].1, info));
    }
  }

  /** The number of documents over a list of path entries. */
  function TotalMethodCount(paths: seq<(string, Json)>): nat
  {
    if paths == [] then 0 else TotalMethodCount(paths[..|paths| - 1]) + MethodCount(paths[|paths| - 1].1)
  }

  /** process_openapi_spec yields as many documents as there are method
      keys among the seven, summed over the path items. */
  lemma {:induction false} DocumentCount(paths: seq<(string, Json)>, info: Json)
    requires forall i :: 0 <= i < |paths| ==> ValidPathItem(paths[i].1)
    requires ValidInfo(info)
    ensures |PathDocuments(paths, info)| == TotalMethodCount(paths)
  {
    if paths != [] {
      var n := |paths| - 1;
      DocumentCount(paths[..n], info);
      PathItemCount(paths[n].0, paths[n].1, info);
    }
  }

  // ---------------------------------------------------------------------
  // The ingestion run over all specification files.
  // ---------------------------------------------------------------------

  /** How ingestion ends: with no specification file found it stops with
      exit status 1; otherwise it goes on to index the collected documents. */
  datatype IngestOutcome = NoSpecFiles | Indexed(documents: seq<Document>)

  function IngestExitStatus(outcome: IngestOutcome): int
  {
    if outcome.NoSpecFiles? then 1 else 0
  }

  /** The lists of documents, one after another (Python's repeated extend). */
  function Concat(lists: seq<seq<Document>>): seq<Document>
  {
    if lists == [] then [] else Concat(lists[..|lists| - 1]) + lists[|lists| - 1]
  }

  /** The documents of each specification, file by file. */
  function PerFileDocuments(specs: seq<Json>): (r: seq<seq<Document>>)
    requires forall i :: 0 <= i < |specs| ==> ValidSpec(specs[i])
    ensures |r| == |specs|
  {
    seq(|specs|, i requires 0 <= i < |specs| => SpecDocuments(specs[i]))
  }

  /** ingest_openapi_specs up to the indexing step: the files' specifications
      are processed in order and their documents concatenated. */
  method IngestOpenApiSpecs(specs: seq<Json>) returns (outcome: IngestOutcome)
    requires forall i :: 0 <= i < |specs| ==> ValidSpec(specs[i])
    ensures outcome.NoSpecFiles? <==> specs == []
    ensures IngestExitStatus(outcome) == 1 <==> specs == []
    ensures outcome.Indexed? ==> outcome.documents == Concat(PerFileDocuments(specs))
  {
    if |specs| == 0 {
      return NoSpecFiles;
    }
    ghost var perFile := PerFileDocuments(specs);
    var allDocuments: seq<Document> := [];
    for i := 0 to |specs|
      invariant allDocuments == Concat(perFile[..i])
    {
      var documents := ProcessOpenApiSpec(specs[i]);
      TakeSnoc(perFile, i);
      ConcatSnoc(perFile[..i], documents);
      allDocuments := allDocuments + documents;
    }
    assert perFile[..|specs|] == perFile;
    outcome := Indexed(allDocuments);
  }

  lemma ConcatSnoc(front: seq<seq<Document>>, last: seq<Document>)
    ensures Concat(front + [last]) == Concat(front) + last
  {
    var lists := front + [last];
    assert lists[..|lists| - 1] == front;
  }

  /** The documents of consecutive runs of files follow each other. */
  lemma {:induction false} ConcatAppend(a: seq<seq<Document>>, b: seq<seq<Document>>)
    ensures Concat(a + b) == Concat(a) + Concat(b)
  {
    if b == [] {
      assert a + b == a;
    } else {
      var n := |b| - 1;
      var front := b[..n];
      var last := b[n];
      assert b == front + [last];
      AppendAssoc(a, front, [last]);
      ConcatAppend(a, front);
      ConcatSnoc(a + front, last);
      ConcatSnoc(front, last);
      AppendAssoc(Concat(a), Concat(front), last);
    }
  }

}

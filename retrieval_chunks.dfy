/**
 * `process_api_schema`: turns the `paths` of an OpenAPI schema into one
 * embedding-ready chunk per (path, HTTP verb) pair, in the schema's order.
 * Each chunk carries an entity hint (the second path segment), the intent
 * keywords of its verb and the exact text that is embedded.
 */
module RetrievalChunks {
  import opened Wrappers
  import opened Strings

  /** An operation parameter; either field may be absent. */
  datatype Parameter = Parameter(name: Option<string>, description: Option<string>)

  /** An operation's details; absent fields default as `dict.get` with a default does. */
  datatype Operation = Operation(summary: Option<string>, description: Option<string>, parameters: Option<seq<Parameter>>)

  /** One entry of `paths`: the path and its keys (verbs or others) in iteration order. */
  datatype PathItem = PathItem(path: string, operations: seq<(string, Operation)>)

  /** The parsed schema; `paths` is None when the key is missing. */
  datatype ApiSchema = ApiSchema(paths: Option<seq<PathItem>>)

  datatype Chunk = Chunk(
    path: string,
    verb: string,
    summary: string,
    description: string,
    parameters: seq<Parameter>,
    text: string)

  /** The operation keys that become chunks; anything else (upper case included) is skipped. */
  const VerbKeys := ["get", "post", "put", "delete", "patch"]

  /** The fixed verb-to-keywords table. */
  const IntentKeywords: map<string, string> := map[
    "post" := "create add new insert register assign link provision",
    "put" := "update modify replace edit overwrite",
    "patch" := "update modify partial change adjust",
    "delete" := "remove delete destroy unlink detach",
    "get" := "retrieve get fetch list read show search"
  ]

  /** `intent_keywords.get(method.lower(), "")`. */
  function Keywords(key: string): string {
    if Lower(key) in IntentKeywords then IntentKeywords[Lower(key)] else ""
  }

  /** The second `/`-separated segment once leading and trailing slashes are stripped, or "". */
  function EntityHint(path: string): string {
    var parts := Split(StripChar(path, '/'), '/');
    if |parts| > 1 then parts[1] else ""
  }

  /** `f"param: {name} — {description}"` for each parameter. */
  function ParamTexts(params: seq<Parameter>): (texts: seq<string>)
    ensures |texts| == |params|
    ensures forall i :: 0 <= i < |params| ==>
      texts[i] == "param: " + params[i].name.GetOr("") + " — " + params[i].description.GetOr("")
  {
    seq(|params|, i requires 0 <= i < |params| =>
      "param: " + params[i].name.GetOr("") + " — " + params[i].description.GetOr(""))
  }

  /**
   * The embedding text before the final `strip()`:
   * `"{VERB} {path} {summary} {description} {params} Entity: {hint} Intent: {keywords}"`.
   */
  function RawEmbeddingText(path: string, key: string, op: Operation): string {
    TextHead(path, key) + TextBody(path, op) + Keywords(key)
  }

  function TextHead(path: string, key: string): string {
    Upper(key) + " " + path + " "
  }

  function TextBody(path: string, op: Operation): string {
    op.summary.GetOr("") + " " + op.description.GetOr("") + " "
    + Join(ParamTexts(op.parameters.GetOr([])), " ") + " "
    + "Entity: " + EntityHint(path) + " "
    + "Intent: "
  }

  function MakeChunk(path: string, key: string, op: Operation): (c: Chunk)
    ensures c.path == path && c.verb == Upper(key)
    ensures c.summary == op.summary.GetOr("") && c.description == op.description.GetOr("")
    ensures c.parameters == op.parameters.GetOr([])
    ensures c.text == Strip(RawEmbeddingText(path, key, op))
  {
    Chunk(path, Upper(key), op.summary.GetOr(""), op.description.GetOr(""), op.parameters.GetOr([]),
          Strip(RawEmbeddingText(path, key, op)))
  }

  /** The chunks of one path, one per verb key, in key order. */
  function EndpointChunks(path: string, ops: seq<(string, Operation)>): seq<Chunk>
    decreases |ops|
  {
    if ops == [] then []
    else
      var last := ops[|ops| - 1];
      EndpointChunks(path, ops[..|ops| - 1]) + (if last.0 in VerbKeys then [MakeChunk(path, last.0, last.1)] else [])
  }

  /** The chunks of a sequence of paths, path by path. */
  function PathsChunks(paths: seq<PathItem>): seq<Chunk>
    decreases |paths|
  {
    if paths == [] then []
    else
      var last := paths[|paths| - 1];
      PathsChunks(paths[..|paths| - 1]) + EndpointChunks(last.path, last.operations)
  }

  /** The chunks `process_api_schema` returns for a schema. */
  function SchemaChunks(schema: ApiSchema): seq<Chunk> {
    if schema.paths.None? then [] else PathsChunks(schema.paths.value)
  }

  /** `process_api_schema`: the nested loops over paths and their keys. */
  method ProcessApiSchema(schema: ApiSchema) returns (result: seq<Chunk>)
    ensures result == SchemaChunks(schema)
    ensures schema.paths.None? ==> result == []
  {
    result := [];
    if schema.paths.None? {
      return;
    }
    var paths := schema.paths.value;
    var i := 0;
    while i < |paths|
      invariant 0 <= i <= |paths|
      invariant result == PathsChunks(paths[..i])
    {
      var item := paths[i];
      ghost var before := result;
      var j := 0;
      while j < |item.operations|
        invariant 0 <= j <= |item.operations|
        invariant result == before + EndpointChunks(item.path, item.operations[..j])
      {
        var entry := item.operations[j];
        if entry.0 in VerbKeys {
          result := result + [MakeChunk(item.path, entry.0, entry.1)];
        }
        assert item.operations[..j + 1][..j] == item.operations[..j];
        j := j + 1;
      }
      assert item.operations[..|item.operations|] == item.operations;
      assert paths[..i + 1][..i] == paths[..i];
      i := i + 1;
    }
    assert paths[..|paths|] == paths;
  }

  /** Every verb key of every path yields its chunk. */
  lemma {:induction false} EveryVerbKeyYieldsAChunk(paths: seq<PathItem>, i: nat, j: nat)
    requires i < |paths| && j < |paths[i].operations| && paths[i].operations[j].0 in VerbKeys
    ensures MakeChunk(paths[i].path, paths[i].operations[j].0, paths[i].operations[j].1) in PathsChunks(paths)
    decreases |paths|
  {
    var last := paths[|paths| - 1];
    if i == |paths| - 1 {
      EndpointChunkOfKey(last.path, last.operations, j);
    } else {
      EveryVerbKeyYieldsAChunk(paths[..|paths| - 1], i, j);
    }
  }

  lemma {:induction false} EndpointChunkOfKey(path: string, ops: seq<(string, Operation)>, j: nat)
    requires j < |ops| && ops[j].0 in VerbKeys
    ensures MakeChunk(path, ops[j].0, ops[j].1) in EndpointChunks(path, ops)
    decreases |ops|
  {
    if j < |ops| - 1 {
      EndpointChunkOfKey(path, ops[..|ops| - 1], j);
    }
  }

  /**
   * Every chunk is an upper-cased verb on one of the schema's paths, and is
   * exactly the chunk made from some verb key of some path.
   */
  lemma {:induction false} EveryChunkIsAVerbOnAPath(paths: seq<PathItem>)
    ensures forall c :: c in PathsChunks(paths) ==>
      c.verb in ["GET", "POST", "PUT", "DELETE", "PATCH"] && exists i :: 0 <= i < |paths| && paths[i].path == c.path
    ensures forall c :: c in PathsChunks(paths) ==>
      exists i, j :: 0 <= i < |paths| && 0 <= j < |paths[i].operations| && paths[i].operations[j].0 in VerbKeys
        && c == MakeChunk(paths[i].path, paths[i].operations[j].0, paths[i].operations[j].1)
    decreases |paths|
  {
    if paths != [] {
      var init := paths[..|paths| - 1];
      var last := paths[|paths| - 1];
      EveryChunkIsAVerbOnAPath(init);
      EndpointChunksAreVerbs(last.path, last.operations);
      EndpointChunksOfKeys(last.path, last.operations);
      forall c | c in PathsChunks(paths)
        ensures exists i :: 0 <= i < |paths| && paths[i].path == c.path
        ensures
          exists i, j :: 0 <= i < |paths| && 0 <= j < |paths[i].operations| && paths[i].operations[j].0 in VerbKeys
            && c == MakeChunk(paths[i].path, paths[i].operations[j].0, paths[i].operations[j].1)
      {
        if c in PathsChunks(init) {
          var i, j :| 0 <= i < |init| && 0 <= j < |init[i].operations| && init[i].operations[j].0 in VerbKeys
            && c == MakeChunk(init[i].path, init[i].operations[j].0, init[i].operations[j].1);
          assert paths[i] == init[i];
        } else {
          var i := |paths| - 1;
          var j :| 0 <= j < |last.operations| && last.operations[j].0 in VerbKeys
            && c == MakeChunk(last.path, last.operations[j].0, last.operations[j].1);
          assert paths[i] == last;
        }
      }
    }
  }

  lemma {:induction false} EndpointChunksAreVerbs(path: string, ops: seq<(string, Operation)>)
    ensures forall c :: c in EndpointChunks(path, ops) ==>
      c.path == path && c.verb in ["GET", "POST", "PUT", "DELETE", "PATCH"]
    decreases |ops|
  {
    if ops != [] {
      EndpointChunksAreVerbs(path, ops[..|ops| - 1]);
      var key := ops[|ops| - 1].0;
      if key in VerbKeys {
        UpperVerbs();
      }
    }
  }

  /** Every chunk of a path is the chunk made from one of its verb keys. */
  lemma {:induction false} EndpointChunksOfKeys(path: string, ops: seq<(string, Operation)>)
    ensures forall c :: c in EndpointChunks(path, ops) ==>
      exists j :: 0 <= j < |ops| && ops[j].0 in VerbKeys && c == MakeChunk(path, ops[j].0, ops[j].1)
    decreases |ops|
  {
    if ops != [] {
      var init := ops[..|ops| - 1];
      EndpointChunksOfKeys(path, init);
      forall c | c in EndpointChunks(path, ops)
        ensures exists j :: 0 <= j < |ops| && ops[j].0 in VerbKeys && c == MakeChunk(path, ops[j].0, ops[j].1)
      {
        if c in EndpointChunks(path, init) {
          var j :| 0 <= j < |init| && init[j].0 in VerbKeys && c == MakeChunk(path, init[j].0, init[j].1);
          assert ops[j] == init[j];
        } else {
          assert ops[|ops| - 1].0 in VerbKeys && c == MakeChunk(path, ops[|ops| - 1].0, ops[|ops| - 1].1);
        }
      }
    }
  }




  /** The upper-cased verb keys, and back: the chunk's verb names its key. */
  lemma UpperVerbs()
    ensures Upper("get") == "GET" && Upper("post") == "POST" && Upper("put") == "PUT"
    ensures Upper("delete") == "DELETE" && Upper("patch") == "PATCH"
    ensures forall key :: key in VerbKeys ==> Lower(Upper(key)) == key
  {
    assert Upper("get") == "GET";
    assert Upper("post") == "POST";
    assert Upper("put") == "PUT";
    assert Upper("delete") == "DELETE";
    assert Upper("patch") == "PATCH";
    assert Lower("GET") == "get";
    assert Lower("POST") == "post";
    assert Lower("PUT") == "put";
    assert Lower("DELETE") == "delete";
    assert Lower("PATCH") == "patch";
  }

  /** Only the lower-case verb keys make chunks: "GET" and path-level keys are skipped. */
  lemma OnlyLowerCaseVerbs(path: string, op: Operation)
    ensures EndpointChunks(path, [("GET", op), ("parameters", op), ("get", op)]) == [MakeChunk(path, "get", op)]
  {
    var ops := [("GET", op), ("parameters", op), ("get", op)];
    assert "GET" !in VerbKeys && "parameters" !in VerbKeys && "get" in VerbKeys;
    assert ops[..2] == [("GET", op), ("parameters", op)];
    assert ops[..2][..1] == [("GET", op)];
    assert ops[..2][..1][..0] == [];
    assert EndpointChunks(path, ops[..2][..1]) == [];
    assert EndpointChunks(path, ops[..2]) == [];
  }

  /** The hint of `/<a>/<b>…` is `b`, for non-empty `a` and `b` without slashes. */
  lemma EntityHintIsSecondSegment(a: string, b: string, tail: string)
    requires a != [] && b != [] && '/' !in a && '/' !in b
    requires tail == [] || tail[0] == '/'
    ensures EntityHint("/" + a + "/" + b + tail) == b
  {
    var z := StripHintPath(a, b, tail);
    SplitHintPath(a, b, z);
  }

  /** Stripping slashes from `/a/b<tail>` leaves `a/b` followed by nothing or by a slash. */
  lemma StripHintPath(a: string, b: string, tail: string) returns (z: string)
    requires a != [] && b != [] && '/' !in a && '/' !in b
    requires tail == [] || tail[0] == '/'
    ensures StripChar("/" + a + "/" + b + tail, '/') == a + "/" + b + z
    ensures z == [] || z[0] == '/'
  {
    var path := "/" + a + "/" + b + tail;
    assert path[1..] == a + "/" + b + tail;
    assert TrimLeft(a + "/" + b + tail, '/') == a + "/" + b + tail;
    var x := a + "/" + b;
    assert x[|x| - 1] == b[|b| - 1];
    TrimRightKeepsHead(x, tail, '/');
    z :| TrimRight(x + tail, '/') == x + z && (z == [] || z[0] == tail[0]);
    assert x + tail == a + "/" + b + tail;
  }

  /** The second segment of `a/b<z>` is `b` when `z` is empty or starts a new segment. */
  lemma SplitHintPath(a: string, b: string, z: string)
    requires b != [] && '/' !in a && '/' !in b
    requires z == [] || z[0] == '/'
    ensures var parts := Split(a + "/" + b + z, '/'); |parts| > 1 && parts[1] == b
  {
    var s := a + "/" + b + z;
    assert s == a + ['/'] + (b + z);
    SplitAfterSegment(a, '/', b + z);
    FirstSegment(b, '/', z);
  }

  /** A path with fewer than two segments has no hint. */
  lemma EntityHintOfShortPath(path: string)
    requires '/' !in StripChar(path, '/')
    ensures EntityHint(path) == ""
  {
    SplitWithoutSeparator(StripChar(path, '/'), '/');
  }

  /** The five verbs have keywords; any other key has none. */
  lemma KeywordsTable(key: string)
    ensures key in VerbKeys ==> Keywords(key) != "" && !IsSpace(Keywords(key)[|Keywords(key)| - 1])
    ensures Lower(key) !in VerbKeys ==> Keywords(key) == ""
  {
    if key in VerbKeys {
      UpperVerbs();
      assert Lower(key) == key by {
        assert Lower("get") == "get" && Lower("post") == "post" && Lower("put") == "put";
        assert Lower("delete") == "delete" && Lower("patch") == "patch";
      }
    }
  }

  /** `strip()` leaves alone a text that starts with a capital letter and does not end in whitespace. */
  lemma StripKeeps(head: string, mid: string, tail: string)
    requires |head| > 0 && 'A' <= head[0] <= 'Z'
    requires |tail| > 0 && !IsSpace(tail[|tail| - 1])
    ensures Strip(head + mid + tail) == head + mid + tail
    ensures StartsWith(head + mid + tail, head)
  {
    var s := head + mid + tail;
    assert s[0] == head[0] && s[|s| - 1] == tail[|tail| - 1];
    assert TrimLeftSpace(s) == s;
    StartsWithConcat(head, mid + tail);
    assert head + (mid + tail) == s;
  }

  /** An upper-cased verb key starts with a capital letter. */
  lemma VerbStartsWithCapital(key: string)
    requires key in VerbKeys
    ensures |Upper(key)| > 0 && 'A' <= Upper(key)[0] <= 'Z'
  {
    UpperVerbs();
  }

  /**
   * For a verb key the final `strip()` changes nothing: the text starts
   * with the verb and ends with its last keyword.
   */
  lemma EmbeddingTextIsUnstripped(path: string, key: string, op: Operation)
    requires key in VerbKeys
    ensures MakeChunk(path, key, op).text == RawEmbeddingText(path, key, op)
    ensures StartsWith(MakeChunk(path, key, op).text, TextHead(path, key))
  {
    VerbStartsWithCapital(key);
    KeywordsTable(key);
    StripKeeps(TextHead(path, key), TextBody(path, op), Keywords(key));
  }
}

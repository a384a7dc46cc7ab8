/**
 * `post_filter_results` and the `retrieve_api_endpoint` tool: keeps the
 * recalled candidates whose verb matches and whose path contains
 * "/" + entity (both compared in lower case), orders them by ascending
 * score with a stable sort, keeps the first few, and shapes the reply.
 */
module RetrievalRanking {
  import opened Wrappers
  import opened Strings
  import opened RetrievalChunks
  import opened RetrievalRecall

  /** `k=20` candidates are recalled; `max_results=10` survive the filter. */
  const TopK := 20
  const MaxResults := 10

  /** The filter condition: same verb ignoring case, and "/" + entity inside the lower-cased path. */
  predicate Matches(c: Candidate, verb: string, entity: string) {
    Lower(c.verb) == Lower(verb) && Contains(Lower(c.path), "/" + Lower(entity))
  }

  /** The candidates that pass the filter, in recall order. */
  function Filter(results: seq<Candidate>, verb: string, entity: string): (kept: seq<Candidate>)
    ensures |kept| <= |results|
    ensures forall c :: c in kept <==> c in results && Matches(c, verb, entity)
    decreases |results|
  {
    if |results| == 0 then []
    else
      var last := results[|results| - 1];
      var front := results[..|results| - 1];
      assert forall c :: c in results <==> c in front || c == last;
      if Matches(last, verb, entity) then Filter(front, verb, entity) + [last]
      else Filter(front, verb, entity)
  }

  /** Filtering a concatenation filters each part: order and repetitions are kept. */
  lemma {:induction false} FilterDistributes(a: seq<Candidate>, b: seq<Candidate>, verb: string, entity: string)
    ensures Filter(a + b, verb, entity) == Filter(a, verb, entity) + Filter(b, verb, entity)
    decreases |b|
  {
    if |b| == 0 {
      assert a + b == a;
    } else {
      var front := b[..|b| - 1];
      assert (a + b)[..|a + b| - 1] == a + front;
      assert (a + b)[|a + b| - 1] == b[|b| - 1];
      FilterDistributes(a, front, verb, entity);
    }
  }

  predicate Sorted(s: seq<Candidate>) {
    forall i, j :: 0 <= i < j < |s| ==> s[i].score <= s[j].score
  }

  /** Inserts `x` after every element scoring at most `x.score`. */
  function Insert(sorted: seq<Candidate>, x: Candidate): (r: seq<Candidate>)
    ensures multiset(r) == multiset(sorted) + multiset{x}
    decreases |sorted|
  {
    if |sorted| == 0 || sorted[|sorted| - 1].score <= x.score then sorted + [x]
    else
      var front := sorted[..|sorted| - 1];
      assert sorted == front + [sorted[|sorted| - 1]];
      Insert(front, x) + [sorted[|sorted| - 1]]
  }

  /** `list.sort(key=score)`: a stable sort by ascending score. */
  function SortByScore(s: seq<Candidate>): seq<Candidate>
    decreases |s|
  {
    if |s| == 0 then []
    else Insert(SortByScore(s[..|s| - 1]), s[|s| - 1])
  }

  /** The elements of `s` with score `v`, in order. */
  function WithScore(s: seq<Candidate>, v: int): seq<Candidate>
    decreases |s|
  {
    if |s| == 0 then []
    else if s[|s| - 1].score == v then WithScore(s[..|s| - 1], v) + [s[|s| - 1]]
    else WithScore(s[..|s| - 1], v)
  }

  lemma {:induction false} InsertKeepsSorted(sorted: seq<Candidate>, x: Candidate)
    requires Sorted(sorted)
    ensures Sorted(Insert(sorted, x))
    decreases |sorted|
  {
    if |sorted| > 0 && sorted[|sorted| - 1].score > x.score {
      var front, last := sorted[..|sorted| - 1], sorted[|sorted| - 1];
      InsertKeepsSorted(front, x);
      var r := Insert(front, x);
      assert multiset(r) == multiset(front) + multiset{x};
      forall i | 0 <= i < |r|
        ensures r[i].score <= last.score
      {
        assert r[i] in multiset(r);
        if r[i] != x {
          assert r[i] in multiset(front);
          var k :| 0 <= k < |front| && front[k] == r[i];
          assert sorted[k] == front[k];
        }
      }
    }
  }

  lemma {:induction false} InsertIsStable(sorted: seq<Candidate>, x: Candidate, v: int)
    ensures WithScore(Insert(sorted, x), v) == WithScore(sorted, v) + (if x.score == v then [x] else [])
    decreases |sorted|
  {
    if |sorted| == 0 || sorted[|sorted| - 1].score <= x.score {
      assert (sorted + [x])[..|sorted|] == sorted;
    } else {
      var front, last := sorted[..|sorted| - 1], sorted[|sorted| - 1];
      InsertIsStable(front, x, v);
      var r := Insert(front, x);
      assert (r + [last])[..|r|] == r;
    }
  }

  /** The sort orders by score. */
  lemma {:induction false} SortIsSorted(s: seq<Candidate>)
    ensures Sorted(SortByScore(s))
    decreases |s|
  {
    if |s| > 0 {
      SortIsSorted(s[..|s| - 1]);
      InsertKeepsSorted(SortByScore(s[..|s| - 1]), s[|s| - 1]);
    }
  }

  /** The sort only reorders. */
  lemma {:induction false} SortIsPermutation(s: seq<Candidate>)
    ensures multiset(SortByScore(s)) == multiset(s)
    decreases |s|
  {
    if |s| > 0 {
      SortIsPermutation(s[..|s| - 1]);
      assert s == s[..|s| - 1] + [s[|s| - 1]];
    }
  }

  /** The sort is stable: candidates with equal scores keep their relative order. */
  lemma {:induction false} SortIsStable(s: seq<Candidate>, v: int)
    ensures WithScore(SortByScore(s), v) == WithScore(s, v)
    decreases |s|
  {
    if |s| > 0 {
      SortIsStable(s[..|s| - 1], v);
      InsertIsStable(SortByScore(s[..|s| - 1]), s[|s| - 1], v);
    }
  }

  /** `relevant_apis[:max_results]`. */
  function Take(s: seq<Candidate>, n: nat): seq<Candidate> {
    if n < |s| then s[..n] else s
  }

  /** What `post_filter_results` returns. */
  function Ranked(results: seq<Candidate>, verb: string, entity: string, maxResults: nat): seq<Candidate> {
    Take(SortByScore(Filter(results, verb, entity)), maxResults)
  }

  /** The first `n` of a sorted list: nothing outside it scores below its last element. */
  lemma TakeKeepsTheBest(sorted: seq<Candidate>, n: nat)
    requires Sorted(sorted)
    ensures var top := Take(sorted, n);
      |top| <= n && Sorted(top) && (forall c :: c in top ==> c in sorted) && (|top| < n ==> top == sorted) &&
      (forall c :: c in sorted && |top| > 0 && c.score < top[|top| - 1].score ==> c in top)
  {
    var top := Take(sorted, n);
    forall c | c in sorted && |top| > 0 && c.score < top[|top| - 1].score
      ensures c in top
    {
      var p :| 0 <= p < |sorted| && sorted[p] == c;
      assert sorted[|top| - 1] == top[|top| - 1];
      assert top[p] == c;
    }
  }

  /**
   * The ranked list holds at most `maxResults` matching candidates in
   * ascending score; it drops a match only when it is full, and never one
   * that scores strictly better than the last kept candidate.
   */
  lemma RankedKeepsTheBest(results: seq<Candidate>, verb: string, entity: string, maxResults: nat)
    ensures var top := Ranked(results, verb, entity, maxResults);
      |top| <= maxResults && Sorted(top) &&
      (forall c :: c in top ==> c in results && Matches(c, verb, entity)) &&
      (|top| < maxResults ==> multiset(top) == multiset(Filter(results, verb, entity))) &&
      (forall c :: c in results && Matches(c, verb, entity) && |top| > 0 && c.score < top[|top| - 1].score
         ==> c in top)
  {
    var relevant := Filter(results, verb, entity);
    var sorted := SortByScore(relevant);
    SortIsSorted(relevant);
    SortIsPermutation(relevant);
    TakeKeepsTheBest(sorted, maxResults);
    assert forall c :: c in sorted <==> c in relevant by {
      forall c
        ensures c in sorted <==> c in relevant
      {
        assert c in sorted <==> c in multiset(sorted);
        assert c in relevant <==> c in multiset(relevant);
      }
    }
  }

  /** `post_filter_results`: the filtering loop, then the sort and the slice. */
  method PostFilterResults(results: seq<Candidate>, verb: string, entity: string, maxResults: nat)
    returns (top: seq<Candidate>)
    ensures top == Ranked(results, verb, entity, maxResults)
  {
    var relevant := [];
    var wanted, target := Lower(verb), Lower(entity);
    for i := 0 to |results|
      invariant relevant == Filter(results[..i], verb, entity)
    {
      var result := results[i];
      assert results[..i + 1][..i] == results[..i];
      if Lower(result.verb) == wanted && Contains(Lower(result.path), "/" + target) {
        relevant := relevant + [result];
      }
    }
    assert results[..|results|] == results;
    relevant := SortByScore(relevant);
    top := if maxResults < |relevant| then relevant[..maxResults] else relevant;
  }

  /** The tool's reply dict: the query, the results and an optional message. */
  datatype Answer = Answer(query: string, results: seq<Candidate>, message: Option<string>)

  /** The reply when nothing survives the filter. */
  function NoResultsMessage(query: string): string {
    "No relevant API endpoint found for: " + Quoted(query) + ". Try simplifying the query."
  }

  function Quoted(query: string): string {
    "'" + query + "'"
  }

  /** Builds the reply from the final list; a message appears exactly when the list is empty. */
  function ShapeResponse(query: string, finalApis: seq<Candidate>): (a: Answer)
    ensures a.query == query
    ensures a.message.Some? <==> |finalApis| == 0
    ensures a.message.Some? ==> a.results == [] && Contains(a.message.value, Quoted(query))
    ensures a.message.None? ==> (|a.results| == |finalApis| &&
      forall i :: 0 <= i < |finalApis| ==>
        a.results[i].path == finalApis[i].path && a.results[i].verb == finalApis[i].verb &&
        a.results[i].description == finalApis[i].description && a.results[i].score == finalApis[i].score)
  {
    if |finalApis| == 0 then
      ContainsInfix("No relevant API endpoint found for: ", Quoted(query), ". Try simplifying the query.");
      Answer(query, [], Some(NoResultsMessage(query)))
    else
      Answer(query, seq(|finalApis|, i requires 0 <= i < |finalApis| =>
        Candidate(finalApis[i].path, finalApis[i].verb, finalApis[i].description, finalApis[i].score)), None)
  }

  /** The whole tool on a given recall outcome; a failed recall is passed on. */
  function Respond(query: string, verb: string, entity: string,
                   recalled: Result<seq<Candidate>, RecallError>): Result<Answer, RecallError> {
    match recalled
    case Failure(e) => Failure(e)
    case Success(candidates) => Success(ShapeResponse(query, Ranked(candidates, verb, entity, MaxResults)))
  }

  /** At most ten endpoints are returned, all matching the verb and entity. */
  lemma AnswerIsBounded(query: string, verb: string, entity: string, candidates: seq<Candidate>)
    ensures var a := Respond(query, verb, entity, Success(candidates)).value;
      |a.results| <= MaxResults &&
      (a.message.None? ==> forall i :: 0 <= i < |a.results| ==> Matches(a.results[i], verb, entity)) &&
      (a.message.Some? <==> forall c :: c in candidates ==> !Matches(c, verb, entity))
  {
    var top := Ranked(candidates, verb, entity, MaxResults);
    RankedKeepsTheBest(candidates, verb, entity, MaxResults);
    var a := ShapeResponse(query, top);
    if a.message.None? {
      forall i | 0 <= i < |a.results|
        ensures Matches(a.results[i], verb, entity)
      {
        assert a.results[i] == top[i];
        assert top[i] in top;
      }
    }
    if |top| == 0 {
      assert multiset(Filter(candidates, verb, entity)) == multiset{};
    } else {
      assert top[0] in top;
    }
  }

  /** `retrieve_api_endpoint`: recall twenty candidates, rank them and shape the reply. */
  method RetrieveApiEndpoint(retriever: Retriever, query: string, verb: string, entity: string,
                             schema: ApiSchema, embed: string -> Vector,
                             search: (FlatIndex, Vector, nat) -> seq<Hit>)
    returns (answer: Result<Answer, RecallError>)
    modifies retriever
    ensures answer == Respond(query, verb, entity, old(retriever.Recalled(query, TopK, schema, embed, search)))
    ensures retriever.chunks == if |old(retriever.chunks)| == 0 then SchemaChunks(schema) else old(retriever.chunks)
    ensures old(retriever.CacheComplete()) ==>
      retriever.embedded == old(retriever.embeddedFile).value && retriever.index == old(retriever.indexFile) &&
      retriever.embeddedFile == old(retriever.embeddedFile) && retriever.indexFile == old(retriever.indexFile)
    ensures !old(retriever.CacheComplete()) ==>
      retriever.embedded == Embed(retriever.chunks, embed) && retriever.embeddedFile == Some(retriever.embedded) &&
      match BuildIndex(retriever.embedded)
      case Failure(_) => retriever.index == old(retriever.index) && retriever.indexFile == old(retriever.indexFile)
      case Success(built) =>
        retriever.index == Some(built) && retriever.indexFile == Some(built)
        && Aligned(retriever.chunks, retriever.embedded, built)
    ensures answer.Success? ==> retriever.CacheComplete()
  {
    var recalled := retriever.RetrieveRelevantApis(query, TopK, schema, embed, search);
    if recalled.Failure? {
      return Failure(recalled.error);
    }
    var finalApis := PostFilterResults(recalled.value, verb, entity, MaxResults);
    answer := Success(ShapeResponse(query, finalApis));
  }

  /** The slash anchors the entity's start only: "project" matches a `/projects/` path. */
  lemma SingularEntityMatchesPlural()
    ensures Matches(Candidate("/api/projects/", "GET", "", 0), "get", "project")
  {
    var path := "/api/projects/";
    assert Lower(path) == path;
    assert Lower("GET") == "get" == Lower("get");
    assert Lower("project") == "project";
    assert StartsWith(path[4..], "/project");
  }

  /** "projects" does not match `/api/user-projects/`: no slash precedes it there. */
  lemma HyphenatedPathDoesNotMatch()
    ensures !Matches(Candidate("/api/user-projects/", "GET", "", 0), "get", "projects")
  {
    assert Lower("/api/user-projects/") == "/api/user-projects/";
    assert "/" + Lower("projects") == "/projects";
    NoSlashBeforeProjects();
  }

  lemma NoSlashBeforeProjects()
    ensures !Contains("/api/user-projects/", "/projects")
  {
    var path := "/api/user-projects/";
    var head := path[..12];
    assert head == ['/', 'a', 'p', 'i', '/', 'u', 's', 'e', 'r', '-', 'p', 'r'];
    forall i | 0 <= i <= |path|
      ensures !StartsWith(path[i..], "/projects")
    {
      if i + 9 <= |path| {
        assert path[i..][0] == head[i] && path[i..][1] == head[i + 1];
      }
    }
  }
}

/**
 * The small stateless tools: `infer_http_method` (keyword classifier),
 * `greet_user` (confirmation prompt) and `check_query_type` (access-mode
 * validator).
 */
module MiscTools {
  import opened Wrappers
  import opened Strings
  import opened Http

  const PostWords: seq<string> := ["create", "add", "submit", "post", "new", "invite"]
  const PatchWords: seq<string> := ["update", "edit", "modify", "patch", "change"]
  const DeleteWords: seq<string> := ["delete", "remove"]
  const GetWords: seq<string> := ["get", "list", "retrieve", "show"]

  const EmptyQuery := "Empty query provided."
  const NoMethod := "Could not infer HTTP method from query."

  /** Python's `any(word in query for word in words)`: substring, not whole-word, matching. */
  predicate AnyIn(words: seq<string>, query: string) {
    exists i :: 0 <= i < |words| && Contains(query, words[i])
  }

  datatype Inference = Method(verb: Verb) | Error(message: string)

  function InferHttpMethod(query: string): (r: Inference)
    ensures query == "" ==> r == Error(EmptyQuery)
    ensures r == Method(POST) <==> query != "" && AnyIn(PostWords, Lower(query))
    ensures r == Method(PATCH) <==>
      query != "" && !AnyIn(PostWords, Lower(query)) && AnyIn(PatchWords, Lower(query))
    ensures r == Method(DELETE) <==>
      query != "" && !AnyIn(PostWords, Lower(query)) && !AnyIn(PatchWords, Lower(query))
      && AnyIn(DeleteWords, Lower(query))
    ensures r == Method(GET) <==>
      query != "" && !AnyIn(PostWords, Lower(query)) && !AnyIn(PatchWords, Lower(query))
      && !AnyIn(DeleteWords, Lower(query)) && AnyIn(GetWords, Lower(query))
    ensures r.Error? <==>
      query == "" || !(AnyIn(PostWords, Lower(query)) || AnyIn(PatchWords, Lower(query))
                       || AnyIn(DeleteWords, Lower(query)) || AnyIn(GetWords, Lower(query)))
    ensures r.Error? ==> r.message == EmptyQuery || r.message == NoMethod
    ensures r == Error(NoMethod) <==>
      query != "" && !(AnyIn(PostWords, Lower(query)) || AnyIn(PatchWords, Lower(query))
                       || AnyIn(DeleteWords, Lower(query)) || AnyIn(GetWords, Lower(query)))
  {
    if query == "" then Error(EmptyQuery)
    else
      var q := Lower(query);
      if AnyIn(PostWords, q) then Method(POST)
      else if AnyIn(PatchWords, q) then Method(PATCH)
      else if AnyIn(DeleteWords, q) then Method(DELETE)
      else if AnyIn(GetWords, q) then Method(GET)
      else Error(NoMethod)
  }

  /** Substring matching: "renew" contains "new", so it is classified as POST. */
  lemma InferRenewIsPost()
    ensures InferHttpMethod("renew") == Method(POST)
  {
    assert Lower("renew") == "renew";
    assert "renew"[2..] == "new";
    assert StartsWith("renew"[2..], PostWords[4]);
  }

  /** The match ignores case, and POST wins over every other group. */
  lemma InferPriorityExample()
    ensures InferHttpMethod("Delete and ADD") == Method(POST)
  {
    var q := Lower("Delete and ADD");
    assert q == "delete and add";
    assert q[11..] == "add";
    assert StartsWith(q[11..], PostWords[1]);
  }

  /** Lower-casing a concatenation lower-cases each part. */
  lemma LowerConcat(a: string, b: string)
    ensures Lower(a + b) == Lower(a) + Lower(b)
  {
    assert forall i :: 0 <= i < |a + b| ==> Lower(a + b)[i] == (Lower(a) + Lower(b))[i];
  }

  /**
   * Appending a POST keyword to any query makes the answer POST, whatever
   * PATCH, DELETE or GET words the query already holds.
   */
  lemma PostWordOverrides(query: string, i: nat)
    requires i < |PostWords|
    ensures InferHttpMethod(query + " " + PostWords[i]) == Method(POST)
  {
    var w := PostWords[i];
    assert Lower(w) == w by {
      assert Lower("create") == "create" && Lower("add") == "add" && Lower("submit") == "submit";
      assert Lower("post") == "post" && Lower("new") == "new" && Lower("invite") == "invite";
    }
    LowerConcat(query + " ", w);
    LowerConcat(query, " ");
    assert Lower(" ") == " ";
    ContainsInfix(Lower(query) + " ", w, "");
    assert Lower(query) + " " + w + "" == Lower(query + " " + w);
  }

  /**
   * Without any POST keyword, appending a PATCH keyword makes the answer PATCH.
   */
  lemma PatchWordOverridesLowerGroups(query: string, i: nat)
    requires i < |PatchWords|
    requires !AnyIn(PostWords, Lower(query + " " + PatchWords[i]))
    ensures InferHttpMethod(query + " " + PatchWords[i]) == Method(PATCH)
  {
    var w := PatchWords[i];
    assert Lower(w) == w by {
      assert Lower("update") == "update" && Lower("edit") == "edit" && Lower("modify") == "modify";
      assert Lower("patch") == "patch" && Lower("change") == "change";
    }
    LowerConcat(query + " ", w);
    LowerConcat(query, " ");
    assert Lower(" ") == " ";
    ContainsInfix(Lower(query) + " ", w, "");
    assert Lower(query) + " " + w + "" == Lower(query + " " + w);
  }

  function GreetUser(userQuery: string): (e: Elicitation)
    ensures Contains(e.message, userQuery)
    ensures StartsWith(e.message, "Hello!")
    ensures Required(e) == ["confirm"]
  {
    var rest := " I'm here to help. \n Just to confirm: is your query about - '";
    var pre := "Hello!" + rest;
    ContainsInfix(pre, userQuery, "'?");
    StartsWithConcat("Hello!", rest + userQuery + "'?");
    assert pre + userQuery + "'?" == "Hello!" + (rest + userQuery + "'?");
    Elicitation(pre + userQuery + "'?", "confirm",
                "Please type 'Yes' to confirm or 'No' to correct it.")
  }

  datatype QueryTypeReply = AskQueryType(elicitation: Elicitation) | Invalid(message: string) | QueryType(value: string)

  const AskQueryTypePrompt := Elicitation(
    "Is your query READ-ONLY or READ-WRITE?\nPlease type exactly READ-ONLY or READ-WRITE",
    "query_type", "Query type (e.g., READ-ONLY)")

  function CheckQueryType(queryType: Option<string>): (r: QueryTypeReply)
    ensures r.AskQueryType? <==> queryType == None || queryType == Some("")
    ensures r.AskQueryType? ==> Required(r.elicitation) == ["query_type"]
    ensures r.QueryType? <==> queryType == Some("READ-ONLY") || queryType == Some("READ-WRITE")
    ensures r.QueryType? ==> Some(r.value) == queryType
    ensures r.Invalid? ==> r.message == "Invalid choice. Please type READ-ONLY or READ-WRITE."
  {
    if queryType.None? || queryType.value == "" then AskQueryType(AskQueryTypePrompt)
    else if queryType.value != "READ-ONLY" && queryType.value != "READ-WRITE" then
      Invalid("Invalid choice. Please type READ-ONLY or READ-WRITE.")
    else QueryType(queryType.value)
  }

  /** Only the exact upper-case spellings are accepted. */
  lemma CheckQueryTypeIsCaseSensitive()
    ensures CheckQueryType(Some("read-only")).Invalid?
  {
  }
}

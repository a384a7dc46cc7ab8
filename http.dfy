/**
 * The boundary every tool shares with the remote REST API and with the
 * tool-calling client: requests, responses, elicitation prompts and replies.
 * A tool is modelled as a function of a `server` oracle that answers each
 * request; the `Exchange` it returns records its reply and, in order, the
 * requests it issued.
 */
module Http {
  import opened Strings
  import opened Json

  datatype Verb = GET | POST | PATCH | DELETE

  /** One HTTP request: verb, URL, Authorization header, query parameters and JSON body. */
  datatype Request = Request(
    verb: Verb,
    url: string,
    authorization: string,
    params: map<string, Json>,
    body: map<string, Json>)

  /** One HTTP response: status code, decoded JSON body and raw text. */
  datatype Response = Response(status: int, json: Json, text: string)

  /**
   * An `elicitation/create` prompt: a message and a requested schema of one
   * required string property with its description.
   */
  datatype Elicitation = Elicitation(message: string, property: string, description: string)

  function Required(e: Elicitation): seq<string> {
    [e.property]
  }

  /** A tool's answer: a plain string, an elicitation, or a JSON value passed through from the server. */
  datatype Reply = Text(text: string) | Elicit(elicitation: Elicitation) | Value(json: Json)

  datatype Exchange = Exchange(reply: Reply, sent: seq<Request>)

  const AuthenticationFailed := "Authentication failed. " + "Please check your Waldur API token."
  const PermissionDenied := "Access denied. " + "You don't have permission for this operation."

  /** Neither fixed error message reads as a success report, with or without a leading space. */
  lemma FixedMessagesAreNotSuccess()
    ensures !StartsWith(AuthenticationFailed, "Success!") && !StartsWith(AuthenticationFailed, " Success!")
    ensures !StartsWith(PermissionDenied, "Success!") && !StartsWith(PermissionDenied, " Success!")
  {
    DiffersFirst(AuthenticationFailed, "Success!");
    DiffersFirst(AuthenticationFailed, " Success!");
    DiffersFirst(PermissionDenied, "Success!");
    DiffersFirst(PermissionDenied, " Success!");
  }

  /** The message patch and post give for a status they do not handle by name. */
  function UnexpectedStatusMessage(endpoint: string, status: int): (m: string)
    ensures Contains(m, endpoint)
    ensures Contains(m, "(Error: " + IntToString(status) + ")")
    ensures !StartsWith(m, " Success!")
  {
    var code := "(Error: " + IntToString(status) + ")";
    var lead := "Something went wrong " + "while processing your ";
    var tail := " request. Please check your input or try again later. ";
    var head := lead + endpoint + tail;
    ContainsInfix(lead, endpoint, tail + code);
    assert lead + endpoint + (tail + code) == head + code;
    ContainsInfix(head, code, "");
    assert head + code + "" == head + code;
    DiffersFirst(head + code, " Success!");
    head + code
  }
}

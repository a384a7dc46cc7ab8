/**
 * `post_to_waldur_parsed` and `post_to_waldur`: the token is normalised, the
 * access gate runs, the payload is checked against ordered elicitation rules
 * (projects: short_name, then customer; user-invitations: role), and only
 * then is a POST sent to `<base><endpoint>/`.
 */
module PostTools {
  import opened Wrappers
  import opened Strings
  import opened Json
  import opened Http
  import opened Access
  import opened Utils

  /** How post reports an exception raised while checking access (the stray "str" is the source's). */
  const PostExiting := "Could not verify user access. (Exiting: str"

  const ShortNamePrompt := Elicitation(
    "What is the short name of the project?", "short_name",
    "The short name of the project (e.g., bri-sci-pr)")
  const CustomerPrompt := Elicitation(
    "Which customer/organization is this project for?", "customer",
    "The customer name (e.g., Bristol University)")
  const RolePrompt := Elicitation(
    "Which role do you want to assign to the user?", "role",
    "The role of the user (e.g., PROJECT.ADMIN (Project Administrator))")

  /** The first rule the payload breaks, if any, in the order the tool checks them. */
  function MissingField(endpoint: string, payload: map<string, Json>): (e: Option<Elicitation>)
    ensures endpoint == "projects" && !Truthy(Get(payload, "short_name")) ==> e == Some(ShortNamePrompt)
    ensures endpoint == "projects" && Truthy(Get(payload, "short_name")) && !Truthy(Get(payload, "customer")) ==>
      e == Some(CustomerPrompt)
    ensures endpoint == "user-invitations" && !Truthy(Get(payload, "role")) ==> e == Some(RolePrompt)
    ensures e.None? <==>
      (endpoint == "projects" ==> Truthy(Get(payload, "short_name")) && Truthy(Get(payload, "customer")))
      && (endpoint == "user-invitations" ==> Truthy(Get(payload, "role")))
  {
    if endpoint == "projects" && !Truthy(Get(payload, "short_name")) then Some(ShortNamePrompt)
    else if endpoint == "projects" && !Truthy(Get(payload, "customer")) then Some(CustomerPrompt)
    else if endpoint == "user-invitations" && !Truthy(Get(payload, "role")) then Some(RolePrompt)
    else None
  }

  const InvalidUserData := "Invalid user data format."

  /** `post_to_waldur`'s reading of the POST response. */
  function PostStatusMessage(status: int, endpoint: string): (m: string)
    ensures StartsWith(m, " Success!") <==> status == 200 || status == 201
    ensures status == 401 ==> m == AuthenticationFailed
    ensures status == 403 ==> m == PermissionDenied
    ensures status == 400 ==> m == "Invalid data provided for " + endpoint + " request. Please check your input."
    ensures status !in {200, 201, 400, 401, 403} ==> m == UnexpectedStatusMessage(endpoint, status)
  {
    if status == 200 || status == 201 then
      StartsWithConcat(" Success!", " Your " + endpoint + " request was created.");
      " Success!" + (" Your " + endpoint + " request was created.")
    else if status == 401 then FixedMessagesAreNotSuccess(); AuthenticationFailed
    else if status == 403 then FixedMessagesAreNotSuccess(); PermissionDenied
    else if status == 400 then
      var m := "Invalid data provided for " + endpoint + " request. Please check your input.";
      DiffersFirst(m, " Success!"); m
    else
      UnexpectedStatusMessage(endpoint, status)
  }

  /** `post_to_waldur`: a body that is not a dict is refused before any request. */
  function PostToWaldur(authorization: string, endpoint: string, userData: Json, baseUrl: string,
                        server: Request -> Response): (x: Exchange)
    ensures !userData.JObj? ==> x == Exchange(Text(InvalidUserData), [])
    ensures userData.JObj? ==>
      x.sent == [Request(POST, baseUrl + endpoint + "/", authorization, map[], userData.fields)]
      && x.reply == Text(PostStatusMessage(server(x.sent[0]).status, endpoint))
  {
    if !userData.JObj? then Exchange(Text(InvalidUserData), [])
    else
      var req := Request(POST, baseUrl + endpoint + "/", authorization, map[], userData.fields);
      Exchange(Text(PostStatusMessage(server(req).status, endpoint)), [req])
  }

  /** `post_to_waldur_parsed`, with the `post_to_waldur` call it makes. */
  function PostToWaldurParsed(intent: Intent, payload: map<string, Json>, baseUrl: string,
                              server: Request -> Response): (x: Exchange)
    ensures intent.userAccess == "not a staff" ==> x == Exchange(Text(NotStaffDenied), [])
    ensures intent.userAccess != "not a staff" ==>
      1 <= |x.sent| <= 2
      && x.sent[0] == WhoamiRequest(baseUrl, NormaliseToken(intent.token), intent.email)
  {
    var authorization := NormaliseToken(intent.token);
    if intent.userAccess == "not a staff" then Exchange(Text(NotStaffDenied), [])
    else
      var who := WhoamiRequest(baseUrl, authorization, intent.email);
      match CheckWhoami(intent.userAccess, server(who), PostExiting)
      case Stop(message) => Exchange(Text(message), [who])
      case Pass =>
        match MissingField(intent.endpoint, payload)
        case Some(prompt) => Exchange(Elicit(prompt), [who])
        case None =>
          var post := PostToWaldur(authorization, intent.endpoint, JObj(payload), baseUrl, server);
          Exchange(post.reply, [who] + post.sent)
  }

  /**
   * The POST is sent exactly when the gate passes and no field is missing;
   * when the gate passes but a field is missing, the tool elicits it.
   */
  lemma PostSentOnlyWhenCleared(intent: Intent, payload: map<string, Json>, baseUrl: string,
                                server: Request -> Response)
    requires intent.userAccess != "not a staff"
    ensures var x, who := PostToWaldurParsed(intent, payload, baseUrl, server),
                          WhoamiRequest(baseUrl, NormaliseToken(intent.token), intent.email);
      var gate := CheckWhoami(intent.userAccess, server(who), PostExiting);
      (|x.sent| == 2 <==> gate.Pass? && MissingField(intent.endpoint, payload).None?) &&
      (|x.sent| == 2 ==>
        x.sent[1] == Request(POST, baseUrl + intent.endpoint + "/", NormaliseToken(intent.token), map[], payload)
        && x.reply == Text(PostStatusMessage(server(x.sent[1]).status, intent.endpoint))) &&
      (gate.Pass? && MissingField(intent.endpoint, payload).Some? ==>
        x.reply == Elicit(MissingField(intent.endpoint, payload).value)) &&
      (gate.Stop? ==> x.reply == Text(gate.message))
  {
  }

  /** For a project, a missing short name is asked for before a missing customer. */
  lemma ShortNameAskedBeforeCustomer(payload: map<string, Json>)
    requires !Truthy(Get(payload, "short_name")) && !Truthy(Get(payload, "customer"))
    ensures MissingField("projects", payload) == Some(ShortNamePrompt)
  {
  }
}

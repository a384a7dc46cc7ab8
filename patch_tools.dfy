/**
 * `patch_to_waldur_parsed` and `patch_to_waldur`: access gate, a uuid guard,
 * then a PATCH to `<base><endpoint>/<uuid>/` whose body is the caller's payload
 * after `uuid` has been popped from it in place.
 */
module PatchTools {
  import opened Strings
  import opened Json
  import opened Http
  import opened Access

  function UuidPrompt(endpoint: string): Elicitation {
    Elicitation("I need the UUID to update this " + endpoint + ". Could you provide it?", "uuid",
                "The UUID of the " + endpoint + " to update")
  }

  const InvalidFormat := "The update request could not be processed because the input data format was invalid."
  const NoUuid := "I couldn’t find the resource ID (UUID). Please provide a UUID so I know which item to update."

  function PatchRequest(baseUrl: string, token: string, endpoint: string, uuid: Json, body: map<string, Json>): Request {
    Request(PATCH, baseUrl + endpoint + "/" + PyStr(uuid) + "/", "Token " + token, map[], body)
  }

  /** `patch_to_waldur`'s reading of the PATCH response. */
  function PatchStatusMessage(status: int, endpoint: string, uuid: Json): (m: string)
    ensures StartsWith(m, " Success!") <==> status == 200 || status == 201
    ensures status == 401 ==> m == AuthenticationFailed
    ensures status == 403 ==> m == PermissionDenied
    ensures status == 400 ==> m == "Invalid data provided for " + endpoint + " request. Please check your input."
    ensures status == 404 ==> m == "The " + endpoint + " with UUID " + PyStr(uuid) + " was not found."
    ensures status !in {200, 201, 400, 401, 403, 404} ==> m == UnexpectedStatusMessage(endpoint, status)
  {
    if status == 200 || status == 201 then
      StartsWithConcat(" Success!", " Your " + endpoint + " request with UUID " + PyStr(uuid) + " was updated.");
      " Success!" + (" Your " + endpoint + " request with UUID " + PyStr(uuid) + " was updated.")
    else if status == 401 then FixedMessagesAreNotSuccess(); AuthenticationFailed
    else if status == 403 then FixedMessagesAreNotSuccess(); PermissionDenied
    else if status == 400 then
      var m := "Invalid data provided for " + endpoint + " request. Please check your input.";
      DiffersFirst(m, " Success!"); m
    else if status == 404 then
      var m := "The " + endpoint + " with UUID " + PyStr(uuid) + " was not found.";
      DiffersFirst(m, " Success!"); m
    else
      UnexpectedStatusMessage(endpoint, status)
  }

  /**
   * `patch_to_waldur`. `userData == null` stands for a value that is not a
   * dict. When a request is sent, `uuid` has been removed from `userData` in
   * place and every other key is left as it was.
   */
  method PatchToWaldur(token: string, endpoint: string, userData: Dict?, baseUrl: string,
                       server: Request -> Response) returns (reply: string, sent: seq<Request>)
    modifies userData
    ensures userData == null ==> reply == InvalidFormat && sent == []
    ensures userData != null && !Truthy(old(userData.Lookup("uuid"))) ==>
      reply == NoUuid && sent == [] && userData.entries == old(userData.entries)
    ensures userData != null && Truthy(old(userData.Lookup("uuid"))) ==>
      && userData.entries == old(userData.entries) - {"uuid"}
      && sent == [PatchRequest(baseUrl, token, endpoint, old(userData.Lookup("uuid")), userData.entries)]
      && reply == PatchStatusMessage(server(sent[0]).status, endpoint, old(userData.Lookup("uuid")))
  {
    if userData == null {
      return InvalidFormat, [];
    }
    var uuid := userData.Lookup("uuid");
    if !Truthy(uuid) {
      return NoUuid, [];
    }
    var url := baseUrl + endpoint + "/" + PyStr(uuid) + "/";
    var _ := userData.Pop("uuid");
    var req := Request(PATCH, url, "Token " + token, map[], userData.entries);
    var resp := server(req);
    reply := PatchStatusMessage(resp.status, endpoint, uuid);
    sent := [req];
  }

  /** `patch_to_waldur_parsed`, with the `patch_to_waldur` call it makes. */
  method PatchToWaldurParsed(intent: Intent, payload: Dict, baseUrl: string, server: Request -> Response)
    returns (x: Exchange)
    modifies payload
    ensures intent.userAccess == "not a staff" ==> x == Exchange(Text(NotStaffDenied), [])
    ensures intent.userAccess != "not a staff" ==>
      1 <= |x.sent| <= 2 && x.sent[0] == WhoamiRequest(baseUrl, "Token " + intent.token, intent.email)
    ensures |x.sent| == 2 <==>
      intent.userAccess != "not a staff"
      && CheckWhoami(intent.userAccess, server(x.sent[0]), Exiting).Pass?
      && Truthy(old(payload.Lookup("uuid")))
    ensures |x.sent| < 2 ==> payload.entries == old(payload.entries)
    ensures |x.sent| == 2 ==>
      && payload.entries == old(payload.entries) - {"uuid"}
      && x.sent[1] == PatchRequest(baseUrl, intent.token, intent.endpoint, old(payload.Lookup("uuid")), payload.entries)
      && x.reply == Text(PatchStatusMessage(server(x.sent[1]).status, intent.endpoint, old(payload.Lookup("uuid"))))
    ensures |x.sent| == 1 && CheckWhoami(intent.userAccess, server(x.sent[0]), Exiting).Pass? ==>
      x.reply == Elicit(UuidPrompt(intent.endpoint))
    ensures intent.userAccess != "not a staff" && CheckWhoami(intent.userAccess, server(x.sent[0]), Exiting).Stop? ==>
      x == Exchange(Text(CheckWhoami(intent.userAccess, server(x.sent[0]), Exiting).message), [x.sent[0]])
  {
    if intent.userAccess == "not a staff" {
      return Exchange(Text(NotStaffDenied), []);
    }
    var who := WhoamiRequest(baseUrl, "Token " + intent.token, intent.email);
    var gate := CheckWhoami(intent.userAccess, server(who), Exiting);
    if gate.Stop? {
      return Exchange(Text(gate.message), [who]);
    }
    if !Truthy(payload.Lookup("uuid")) {
      return Exchange(Elicit(UuidPrompt(intent.endpoint)), [who]);
    }
    var reply, sent := PatchToWaldur(intent.token, intent.endpoint, payload, baseUrl, server);
    x := Exchange(Text(reply), [who] + sent);
  }
}

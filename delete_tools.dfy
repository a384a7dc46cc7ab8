/**
 * `delete_from_waldur_parsed` and `delete_from_waldur`: access gate, then a
 * confirmation state machine over the payload's `uuid`/`short_name` and the
 * `confirm` argument; the DELETE request is issued only after an explicit yes.
 */
module DeleteTools {
  import opened Wrappers
  import opened Strings
  import opened Json
  import opened Http
  import opened Access

  const ShortNamePrompt := Elicitation(
    "Please provide the short name.", "short_name",
    "The short name (e.g., if it's a project bri-sci-pro)")

  function ConfirmPrompt(uuid: Json): Elicitation {
    Elicitation("Are you sure you want to go ahead with deletion?.", "confirm",
                "Say Yes or No whether you want to go ahead with deletion of uuid " + PyStr(uuid))
  }

  const Cancelled := "Deletion cancelled as per your request."

  predicate IsYes(confirm: Option<string>) { confirm == Some("Yes") || confirm == Some("yes") }
  predicate IsNo(confirm: Option<string>) { confirm == Some("No") || confirm == Some("no") }

  /** What the tool does once access is verified. */
  datatype Step = AskShortName | AskConfirm(uuid: Json) | Cancel | Delete(uuid: Json)

  function NextStep(payload: map<string, Json>, confirm: Option<string>): (s: Step)
    ensures s.AskShortName? <==> !Truthy(Get(payload, "uuid")) && !Truthy(Get(payload, "short_name"))
    ensures s.Delete? <==> !s.AskShortName? && IsYes(confirm)
    ensures s.Cancel? <==> !s.AskShortName? && IsNo(confirm)
    ensures s.AskConfirm? <==> !s.AskShortName? && !IsYes(confirm) && !IsNo(confirm)
    ensures (s.Delete? || s.AskConfirm?) ==> s.uuid == Get(payload, "uuid")
  {
    var uuid := Get(payload, "uuid");
    if !Truthy(uuid) && !Truthy(Get(payload, "short_name")) then AskShortName
    else if Truthy(uuid) && confirm.None? then AskConfirm(uuid)
    else if IsYes(confirm) then Delete(uuid)
    else if IsNo(confirm) then Cancel
    else AskConfirm(uuid)
  }

  /** A uuid without an answer is never deleted: the user is asked first. */
  lemma UuidWithoutConfirmAsks(payload: map<string, Json>)
    requires Truthy(Get(payload, "uuid"))
    ensures NextStep(payload, None) == AskConfirm(Get(payload, "uuid"))
  {
  }

  function DeleteRequest(baseUrl: string, token: string, endpoint: string, uuid: Json): Request {
    Request(DELETE, baseUrl + endpoint + "/" + PyStr(uuid) + "/", "Token " + token, map[], map[])
  }

  /** `delete_from_waldur`'s reading of the DELETE response. */
  function DeleteStatusMessage(status: int, text: string, endpoint: string, uuid: Json): (m: string)
    ensures StartsWith(m, "Success!") <==> status == 204 || status == 202
    ensures status == 401 ==> m == AuthenticationFailed
    ensures status == 403 ==> m == PermissionDenied
    ensures status == 404 ==> m == "The " + endpoint + " with UUID " + PyStr(uuid) + " was not found."
    ensures status !in {202, 204, 401, 403, 404} ==>
      m == "Couldn't delete the " + endpoint + " with the UUID " + PyStr(uuid) + ". " + IntToString(status) + " - " + text
  {
    var u := PyStr(uuid);
    if status == 204 || status == 202 then
      StartsWithConcat("Success!", " The " + endpoint + " with the UUID " + u + " was deleted.");
      "Success!" + (" The " + endpoint + " with the UUID " + u + " was deleted.")
    else if status == 401 then FixedMessagesAreNotSuccess(); AuthenticationFailed
    else if status == 403 then FixedMessagesAreNotSuccess(); PermissionDenied
    else if status == 404 then
      var m := "The " + endpoint + " with UUID " + u + " was not found.";
      DiffersFirst(m, "Success!"); m
    else
      var m := "Couldn't delete the " + endpoint + " with the UUID " + u + ". " + IntToString(status) + " - " + text;
      DiffersFirst(m, "Success!"); m
  }

  /** `delete_from_waldur_parsed` together with the `delete_from_waldur` call it makes. */
  function DeleteFromWaldurParsed(intent: Intent, payload: map<string, Json>, confirm: Option<string>,
                                  baseUrl: string, server: Request -> Response): (x: Exchange)
    ensures intent.userAccess == "not a staff" ==> x == Exchange(Text(NotStaffDenied), [])
    ensures intent.userAccess != "not a staff" ==>
      1 <= |x.sent| <= 2 && x.sent[0] == WhoamiRequest(baseUrl, "Token " + intent.token, intent.email)
    ensures |x.sent| == 2 <==>
      intent.userAccess != "not a staff"
      && CheckWhoami(intent.userAccess, server(x.sent[0]), Exiting).Pass?
      && NextStep(payload, confirm).Delete?
    ensures |x.sent| == 2 ==>
      IsYes(confirm)
      && x.sent[1] == DeleteRequest(baseUrl, intent.token, intent.endpoint, Get(payload, "uuid"))
      && x.reply == Text(DeleteStatusMessage(server(x.sent[1]).status, server(x.sent[1]).text,
                                             intent.endpoint, Get(payload, "uuid")))
  {
    if intent.userAccess == "not a staff" then Exchange(Text(NotStaffDenied), [])
    else
      var who := WhoamiRequest(baseUrl, "Token " + intent.token, intent.email);
      match CheckWhoami(intent.userAccess, server(who), Exiting)
      case Stop(message) => Exchange(Text(message), [who])
      case Pass =>
        match NextStep(payload, confirm)
        case AskShortName => Exchange(Elicit(ShortNamePrompt), [who])
        case AskConfirm(uuid) => Exchange(Elicit(ConfirmPrompt(uuid)), [who])
        case Cancel => Exchange(Text(Cancelled), [who])
        case Delete(uuid) =>
          var req := DeleteRequest(baseUrl, intent.token, intent.endpoint, uuid);
          var resp := server(req);
          Exchange(Text(DeleteStatusMessage(resp.status, resp.text, intent.endpoint, uuid)), [who, req])
  }

  /**
   * Past the "not a staff" refusal, the reply on every path: the gate's own
   * message when it stops, otherwise the step's prompt, the cancellation
   * text, or the DELETE's status message.
   */
  lemma DeleteReplies(intent: Intent, payload: map<string, Json>, confirm: Option<string>,
                      baseUrl: string, server: Request -> Response)
    requires intent.userAccess != "not a staff"
    ensures var who := WhoamiRequest(baseUrl, "Token " + intent.token, intent.email);
      var gate, step := CheckWhoami(intent.userAccess, server(who), Exiting), NextStep(payload, confirm);
      var x := DeleteFromWaldurParsed(intent, payload, confirm, baseUrl, server);
      && (gate.Stop? ==> x == Exchange(Text(gate.message), [who]))
      && (gate.Pass? && step.AskShortName? ==> x == Exchange(Elicit(ShortNamePrompt), [who]))
      && (gate.Pass? && step.AskConfirm? ==> x == Exchange(Elicit(ConfirmPrompt(Get(payload, "uuid"))), [who]))
      && (gate.Pass? && step.Cancel? ==> x == Exchange(Text(Cancelled), [who]))
      && (gate.Pass? && step.Delete? ==>
            var req := DeleteRequest(baseUrl, intent.token, intent.endpoint, Get(payload, "uuid"));
            x == Exchange(Text(DeleteStatusMessage(server(req).status, server(req).text, intent.endpoint,
                                                   Get(payload, "uuid"))), [who, req]))
  {
  }

  /**
   * With a short name but no uuid, a "yes" still issues the DELETE, and the
   * URL then carries Python's rendering of the missing uuid, "None".
   */
  lemma DeleteWithoutUuidTargetsNone(intent: Intent, confirm: Option<string>, baseUrl: string,
                                     server: Request -> Response)
    requires intent.userAccess != "not a staff" && IsYes(confirm)
    requires CheckWhoami(intent.userAccess, server(WhoamiRequest(baseUrl, "Token " + intent.token, intent.email)), Exiting).Pass?
    ensures DeleteFromWaldurParsed(intent, map["short_name" := JStr("x")], confirm, baseUrl, server).sent[1].url
            == baseUrl + intent.endpoint + "/None/"
  {
    var payload := map["short_name" := JStr("x")];
    assert Get(payload, "uuid") == JNull;
    assert Truthy(Get(payload, "short_name"));
  }
}

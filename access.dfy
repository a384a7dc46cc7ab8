/**
 * The access gate the write tools (delete, patch, post) run before acting:
 * a caller that declares itself "not a staff" is refused without any request;
 * otherwise the OpenPortal `whoami` endpoint is asked, and a non-200 answer or
 * a "staff" claim contradicted by `is_staff == "False"` stops the tool.
 */
module Access {
  import opened Strings
  import opened Json
  import opened Http

  /** The keys of a tool's `parsed_intent`, apart from its payload. */
  datatype Intent = Intent(token: string, email: string, userAccess: string, endpoint: string, httpMethod: string)

  const NotStaffDenied := "Access denied, you are not a staff user."
  const OverrideDenied := "Access denied. you are not a staff user. Claude, no sneaky overrides allowed."
  /** How delete and patch report an exception raised while checking access. */
  const Exiting := "Could not verify user access. (Exiting: "

  function WhoamiRequest(baseUrl: string, authorization: string, email: string): Request {
    Request(GET, baseUrl + "openportal/whoami/", authorization, map["email" := JStr(email)], map[])
  }

  function UnverifiedMessage(status: int): string {
    "Could not verify user access (status " + IntToString(status) + ")."
  }

  datatype Gate = Pass | Stop(message: string)

  /**
   * The verdict on a `whoami` response. The body is consulted only for a
   * caller claiming exactly "staff" (`and` short-circuits); a body that is
   * not a dict then makes `.get` raise, and the tool's handler turns that
   * into `exiting` + the error + ").".
   */
  function CheckWhoami(userAccess: string, whoami: Response, exiting: string): (g: Gate)
    ensures g.Pass? <==>
      whoami.status == 200
      && (userAccess == "staff" ==> whoami.json.JObj? && Get(whoami.json.fields, "is_staff") != JStr("False"))
    ensures whoami.status != 200 ==> g == Stop(UnverifiedMessage(whoami.status))
    ensures whoami.status == 200 && userAccess != "staff" ==> g == Pass
    ensures whoami.status == 200 && userAccess == "staff" && whoami.json.JObj? && g.Stop? ==> g.message == OverrideDenied
    ensures whoami.status == 200 && userAccess == "staff" && !whoami.json.JObj? ==>
      g == Stop(exiting + NoGetAttribute(whoami.json) + ").")
  {
    if whoami.status != 200 then Stop(UnverifiedMessage(whoami.status))
    else if userAccess != "staff" then Pass
    else if !whoami.json.JObj? then Stop(exiting + NoGetAttribute(whoami.json) + ").")
    else if Get(whoami.json.fields, "is_staff") == JStr("False") then Stop(OverrideDenied)
    else Pass
  }

  /**
   * The staff check compares with the string "False": a JSON boolean `false`,
   * or any declared access other than exactly "staff", is let through, and
   * for such a claim the body is never looked at.
   */
  lemma StaffCheckIsLiteral(exiting: string)
    ensures CheckWhoami("staff", Response(200, JObj(map["is_staff" := JBool(false)]), ""), exiting) == Pass
    ensures CheckWhoami("Staff", Response(200, JObj(map["is_staff" := JStr("False")]), ""), exiting) == Pass
    ensures CheckWhoami("staff", Response(200, JObj(map["is_staff" := JStr("False")]), ""), exiting) == Stop(OverrideDenied)
    ensures CheckWhoami("Staff", Response(200, JList([]), ""), exiting) == Pass
    ensures CheckWhoami("staff", Response(200, JList([]), ""), exiting).Stop?
  {
    assert Get(map["is_staff" := JBool(false)], "is_staff") == JBool(false);
  }
}

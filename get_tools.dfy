/**
 * `get_uuid`: the argument checks in order (token, entity, short name for
 * projects and customers, known entity type), then one lookup by short
 * name whose first match's `uuid` is passed through.
 */
module GetTools {
  import opened Wrappers
  import opened Strings
  import opened Json
  import opened Http
  import opened Utils

  const MissingToken := "Missing Waldur API token."

  const EntityPrompt := Elicitation(
    "For which entity do you want the UUID?", "entity",
    "The name of the entity (e.g., projects)")

  function ShortNamePrompt(entity: string): Elicitation {
    Elicitation("Please provide the short name of the " + entity + ".", "short_name",
                "The short name of the " + entity + " (e.g., bri-sci-pro)")
  }

  /** The entity types `get_uuid` knows, with the path segment each is listed under. */
  const EndpointMap: map<string, string> := map[
    "projects" := "projects/",
    "users" := "users/",
    "customers" := "customers/",
    "customer-credits" := "customer-credits/",
    "project-credits" := "project-credits/",
    "roles" := "roles/",
    "slurm-allocations" := "slurm-allocations/",
    "slurm-jobs" := "slurm-jobs/",
    "user-invitations" := "user-invitations/",
    "invoice" := "invoices/",
    "marketplace-service-providers" := "marketplace-service-providers/",
    "marketplace-offerings" := "marketplace-offerings/",
    "marketplace-orders" := "marketplace-orders/",
    "marketplace-resource" := "marketplace-resources/",
    "marketplace-plans" := "marketplace-plans/",
    "marketplace-provider-offerings" := "marketplace-provider-offerings/",
    "marketplace-offering-permissions" := "marketplace-offering-permissions/"
  ]

  /** Every entity is listed under its own name plus "/", except the two singular names. */
  lemma EndpointMapPaths()
    ensures "invoice" in EndpointMap && EndpointMap["invoice"] == "invoices/"
    ensures "marketplace-resource" in EndpointMap && EndpointMap["marketplace-resource"] == "marketplace-resources/"
    ensures forall k :: k in EndpointMap && k != "invoice" && k != "marketplace-resource" ==> EndpointMap[k] == k + "/"
    ensures "invoices" !in EndpointMap && "marketplace-resources" !in EndpointMap
  {
  }

  /** Python truthiness of an optional string argument. */
  predicate Given(o: Option<string>) {
    o.Some? && o.value != ""
  }

  /** `get_uuid`'s message when nothing matches. */
  function NotFoundMessage(entity: string, shortName: Option<string>): string {
    if Given(shortName) then "No " + entity + " found with short_name '" + shortName.value + "'."
    else "No " + entity + " found matching the criteria."
  }

  /** `get_uuid`'s reading of the lookup response. */
  function UuidReply(resp: Response, entity: string, shortName: Option<string>): (r: Reply)
    ensures r.Value? <==>
      (resp.status == 200 || resp.status == 201) && resp.json.JList? && |resp.json.items| > 0
      && resp.json.items[0].JObj? && Truthy(Get(resp.json.items[0].fields, "uuid"))
    ensures r.Value? ==> r.json == Get(resp.json.items[0].fields, "uuid") && Truthy(r.json)
    ensures (resp.status == 200 || resp.status == 201) && resp.json.JList? && |resp.json.items| > 0
            && !resp.json.items[0].JObj? ==>
      r == Text("Error connecting to the server: " + NoGetAttribute(resp.json.items[0]))
    ensures (resp.status == 200 || resp.status == 201) && resp.json.JList? && |resp.json.items| > 0
            && resp.json.items[0].JObj? && !Truthy(Get(resp.json.items[0].fields, "uuid")) ==>
      r == Text("I found " + entity + " but it has no UUID field.")
    ensures (resp.status == 200 || resp.status == 201) && !(resp.json.JList? && |resp.json.items| > 0) ==>
      r == Text(NotFoundMessage(entity, shortName))
    ensures resp.status == 404 ==> r == Text(NotFoundMessage(entity, shortName))
    ensures resp.status == 401 ==> r == Text(AuthenticationFailed)
    ensures resp.status == 403 ==> r == Text(PermissionDenied)
    ensures resp.status !in {200, 201, 401, 403, 404} ==>
      r == Text("API returned status error: " + IntToString(resp.status) + ".")
  {
    if resp.status == 200 || resp.status == 201 then
      if resp.json.JList? && |resp.json.items| > 0 then
        var first := resp.json.items[0];
        if !first.JObj? then Text("Error connecting to the server: " + NoGetAttribute(first))
        else if Truthy(Get(first.fields, "uuid")) then Value(Get(first.fields, "uuid"))
        else Text("I found " + entity + " but it has no UUID field.")
      else Text(NotFoundMessage(entity, shortName))
    else if resp.status == 401 then Text(AuthenticationFailed)
    else if resp.status == 403 then Text(PermissionDenied)
    else if resp.status == 404 then Text(NotFoundMessage(entity, shortName))
    else Text("API returned status error: " + IntToString(resp.status) + ".")
  }

  /** A successful lookup that finds nothing reads exactly like a 404. */
  lemma EmptyListingIsNotFound(resp: Response, entity: string, shortName: Option<string>)
    requires resp.status == 200 && (resp.json == JList([]) || !resp.json.JList?)
    ensures UuidReply(resp, entity, shortName) == UuidReply(resp.(status := 404), entity, shortName)
  {
  }

  function UuidRequest(token: string, shortName: Option<string>, entity: string, baseUrl: string): Request
    requires entity in EndpointMap
  {
    Request(GET, baseUrl + EndpointMap[entity], NormaliseToken(token),
            map["short_name" := if shortName.Some? then JStr(shortName.value) else JNull], map[])
  }

  /** `get_uuid`: the argument checks in order, then at most one lookup. */
  function GetUuid(token: string, shortName: Option<string>, entity: Option<string>, baseUrl: string,
                   server: Request -> Response): (x: Exchange)
    ensures token == "" ==> x == Exchange(Text(MissingToken), [])
    ensures token != "" && !Given(entity) ==> x == Exchange(Elicit(EntityPrompt), [])
    ensures token != "" && Given(entity) && entity.value in {"projects", "customers"} && !Given(shortName) ==>
      x == Exchange(Elicit(ShortNamePrompt(entity.value)), [])
    ensures token != "" && Given(entity) && (entity.value in {"projects", "customers"} ==> Given(shortName))
            && entity.value !in EndpointMap ==>
      x == Exchange(Text("Sorry, I do not recognise the entity type '" + entity.value + "'."), [])
    ensures |x.sent| <= 1
    ensures |x.sent| == 1 <==>
      token != "" && Given(entity) && entity.value in EndpointMap
      && (entity.value in {"projects", "customers"} ==> Given(shortName))
    ensures |x.sent| == 1 ==>
      x.sent[0] == UuidRequest(token, shortName, entity.value, baseUrl)
      && x.reply == UuidReply(server(x.sent[0]), entity.value, shortName)
    ensures x.reply.Value? ==> |x.sent| == 1 && Truthy(x.reply.json)
  {
    if token == "" then Exchange(Text(MissingToken), [])
    else if !Given(entity) then Exchange(Elicit(EntityPrompt), [])
    else if entity.value in {"projects", "customers"} && !Given(shortName) then
      Exchange(Elicit(ShortNamePrompt(entity.value)), [])
    else if entity.value !in EndpointMap then
      Exchange(Text("Sorry, I do not recognise the entity type '" + entity.value + "'."), [])
    else
      var req := UuidRequest(token, shortName, entity.value, baseUrl);
      Exchange(UuidReply(server(req), entity.value, shortName), [req])
  }

  /** The short name is demanded only for projects and customers; other entities may be listed without one. */
  lemma ShortNameOptionalForUsers(token: string, baseUrl: string, server: Request -> Response)
    requires token != ""
    ensures |GetUuid(token, None, Some("users"), baseUrl, server).sent| == 1
    ensures GetUuid(token, None, Some("projects"), baseUrl, server).reply == Elicit(ShortNamePrompt("projects"))
  {
  }
}

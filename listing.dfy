/**
 * `get_from_waldur`: the caller's query, with the essential fields of the
 * endpoint added when it names none, handed to the page loop.
 */
module Listing {
  import opened Wrappers
  import opened Json
  import opened Http
  import opened Utils
  import opened Paging

  /** The fields `get_from_waldur` asks for when the caller names none. */
  function EssentialFields(): map<string, seq<string>> {
    map[
      "customers" := ["uuid", "name", "abbreviation", "projects_count", "users_count", "email"],
      "projects" := ["uuid", "name", "short_name", "customer_name", "created", "start_date", "end_date"],
      "users" := ["uuid", "username", "email", "full_name", "is_staff"],
      "user-invitations" := ["email", "created", "state"],
      "marketplace-resources" := ["uuid", "name", "state", "project_name", "customer_name", "offering_name", "plan_name"],
      "marketplace-orders" := ["uuid", "state", "type", "resource_name", "offering_name", "project_name", "created"],
      "roles" := ["uuid", "name", "description", "is_active"]
    ]
  }

  function FieldList(names: seq<string>): (j: Json)
    ensures j.JList? && |j.items| == |names|
    ensures forall i :: 0 <= i < |names| ==> j.items[i] == JStr(names[i])
  {
    JList(seq(|names|, i requires 0 <= i < |names| => JStr(names[i])))
  }

  /** The query `get_from_waldur` sends: the caller's payload, plus "field" when it has none and the endpoint has defaults. */
  function WithEssentialFields(payload: map<string, Json>, endpoint: string): (q: map<string, Json>)
    ensures "field" in payload ==> q == payload
    ensures forall k :: k in payload && k != "field" ==> k in q && q[k] == payload[k]
    ensures q.Keys == payload.Keys + (if endpoint in EssentialFields() then {"field"} else {})
    ensures "field" !in payload && endpoint in EssentialFields() ==> q["field"] == FieldList(EssentialFields()[endpoint])
  {
    if "field" !in payload && endpoint in EssentialFields() then payload["field" := FieldList(EssentialFields()[endpoint])]
    else payload
  }

  /** An exception that escapes a tool. */
  datatype Exception = NameError(name: string)

  /** How the as-written tool ends: with the page loop's result, or with an escaping exception. */
  datatype Ending = Returned(r: Result<Listing, FetchError>) | Raised(exception: Exception)

  /**
   * `get_from_waldur` as written: both branches of the injection log through
   * `logger`, a name the module neither defines nor imports, so every call
   * raises NameError after preparing the query and before any request is sent.
   */
  method GetFromWaldurAsWritten(token: string, endpoint: string, payload: map<string, Json>, baseUrl: string,
                                server: Request -> Response)
    returns (ending: Ending, sent: seq<Request>)
    ensures ending == Raised(NameError("logger")) && sent == []
  {
    var query := new Dict(payload);
    if "field" !in query.entries && endpoint in EssentialFields() {
      query.Set("field", FieldList(EssentialFields()[endpoint]));
      return Raised(NameError("logger")), [];
    }
    return Raised(NameError("logger")), [];
  }

  /**
   * The query lost to the NameError on a plain customers listing: the
   * corrected tool sends exactly the default customer fields.
   */
  lemma CustomersQueryIsTheDefaultFields()
    ensures WithEssentialFields(map[], "customers")
         == map["field" := FieldList(["uuid", "name", "abbreviation", "projects_count", "users_count", "email"])]
  {
  }

  /** Adding the defaults twice is adding them once. */
  lemma EssentialFieldsIdempotent(payload: map<string, Json>, endpoint: string)
    ensures WithEssentialFields(WithEssentialFields(payload, endpoint), endpoint) == WithEssentialFields(payload, endpoint)
  {
  }

  /**
   * `get_from_waldur`: copies the payload into a fresh dict, adds the
   * essential fields to the copy, and lists the endpoint with it;
   * at most `MaxPages` requests, and a listing holds exactly the items of the
   * pages requested.
   */
  method GetFromWaldur(token: string, endpoint: string, payload: map<string, Json>, baseUrl: string,
                       server: Request -> Response)
    returns (r: Result<Listing, FetchError>, sent: seq<Request>)
    ensures var url, authorization := baseUrl + endpoint + "/", NormaliseToken(token);
      var query := WithEssentialFields(payload, endpoint);
      var c := CrawlFrom(PageFetcher(url, authorization, query, server), 1);
      sent == PageRequests(url, authorization, query, c.pages) && r == Summarise(c.outcome, endpoint)
    ensures 1 <= |sent| <= MaxPages
    ensures r.Success? ==>
      r.value.data == Gathered(PageFetcher(baseUrl + endpoint + "/", NormaliseToken(token),
                                           WithEssentialFields(payload, endpoint), server), 1, |sent|)
  {
    var query := new Dict(payload);
    if "field" !in query.entries && endpoint in EssentialFields() {
      query.Set("field", FieldList(EssentialFields()[endpoint]));
    }
    r, sent := CallWaldurApis(token, endpoint, query.entries, baseUrl, server);
  }
}

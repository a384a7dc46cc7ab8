# Waldur MCP tools, modelled in Dafny

This project models the deterministic core of an MCP server that drives the
Waldur cloud-management REST API. The model covers:

- **Endpoint retrieval.** `process_api_schema` turns an OpenAPI `paths`
  table into embedding-ready chunks. `retrieve_relevant_apis` embeds the
  chunks and keeps them aligned slot by slot with a flat L2 index, then maps
  the search hits back to chunks. `post_filter_results` filters the
  candidates by verb and entity, sorts them by score and truncates the list.
  `retrieve_api_endpoint` shapes the reply.
- **The HTTP tools.**
  - Token normalisation.
  - The `infer_http_method` keyword classifier and the `check_query_type`
    validator.
  - The `get_uuid` decision chain and its entity-to-endpoint table.
  - Essential-field injection in `get_from_waldur`, and the bounded page
    loop of `call_waldur_apis`.
  - The staff gate shared by the write tools, the delete confirmation
    state machine, the patch uuid pop, and the post elicitation rules.
  - The status-to-message mapping of every tool.
- **`validate_config`**, which reports empty environment variables.

The network is a `server: Request -> Response` oracle. Every tool returns
its reply together with the requests it sent, in order. The embedding model
is a function from a text to a vector. The index search is a given sequence
of (slot, distance) hits, where slot -1 means "no match". Distances are
abstract integers, because only their order matters.

Modules, one per source component:

- `Utils`, `MiscTools`, `Config`.
- `Access`: the whoami gate.
- `DeleteTools`, `PatchTools`, `PostTools`.
- `GetTools`: `get_uuid`.
- `Paging`: `call_waldur_apis`.
- `Listing`: `get_from_waldur`.
- `RetrievalChunks`, `RetrievalRecall`, `RetrievalRanking`.
- Shared helper modules: `Wrappers`, `Strings` (Python string semantics),
  `Json` (Python values, truthiness, `dict.get`, a mutable `Dict`) and
  `Http`.

Entity matching is the test at src/retrieve_api_endpoint_tool.py:230:
`"/" + entity` must occur somewhere in the lower-cased path. The prefix test
`/api/<entity>` on the line above it is commented out. So "project" matches
`/api/projects/`, but "projects" does not match `/api/user-projects/`
(`RetrievalRanking.HyphenatedPathDoesNotMatch`).

## Model

| member | source | states |
|---|---|---|
| Utils.NormaliseToken | src/utils.py:9-11 | A token that already starts with exactly "Token " is returned unchanged. Any other token gets "Token " prepended. The result always starts with "Token ". |
| Utils.NormaliseIdempotent | src/utils.py:9-11 | Normalising twice gives the same result as normalising once. |
| Utils.NormaliseIsCaseAndSpaceSensitive | src/utils.py:9-11 | "token x" becomes "Token token x", "Token" becomes "Token Token", and "Token abc" is kept. |
| MiscTools.InferHttpMethod | src/misc_tools.py:38-51 | An empty query gives the empty-query error. Each verb is the result iff a keyword of its group occurs (case-insensitive substring) and none of a higher group does, in the priority POST > PATCH > DELETE > GET. The result is the "could not infer" error exactly when the query is non-empty and no keyword of any group occurs. |
| MiscTools.PostWordOverrides | src/misc_tools.py:40-43 | Appending any POST keyword to any query makes the answer POST, whatever other keywords it holds. |
| MiscTools.PatchWordOverridesLowerGroups | src/misc_tools.py:40-46 | Appending a PATCH keyword to a query with no POST keyword makes the answer PATCH, whatever DELETE or GET words it holds. |
| MiscTools.InferRenewIsPost | src/misc_tools.py:40-43 | Matching is by substring: "renew" contains "new" and is classified POST. |
| MiscTools.InferPriorityExample | src/misc_tools.py:40-49 | Case is ignored, and POST wins when a DELETE word also occurs ("Delete and ADD"). |
| MiscTools.GreetUser | src/misc_tools.py:59-91 | The elicitation message starts with "Hello!", contains the user's query, and requires exactly "confirm". |
| MiscTools.CheckQueryType | src/misc_tools.py:110-129 | A missing or empty value is elicited, requiring "query_type". Exactly "READ-ONLY" and "READ-WRITE" are echoed back. Every other value gets the fixed error. |
| MiscTools.CheckQueryTypeIsCaseSensitive | src/misc_tools.py:127-128 | "read-only" is rejected. |
| Config.ValidateConfig | config.py:24-38 | The result is None iff all five checked variables are non-empty. Otherwise it is "Missing environment variables: " followed by the empty names, comma-joined in check order. |
| Config.MissingNamesExact | config.py:26-35 | A name is listed iff one of the checked (name, value) pairs carries that name with an empty value. |
| Config.ReportedExactlyWhenEmpty | config.py:24-35 | Each of the five names is reported exactly when its own value is empty, and no other name is ever reported. |
| Config.OptionalVariablesNeverReported | config.py:17-35 | MCP_DATA_PATH and VERIFY_SSL are never reported as missing. |
| Access.CheckWhoami | src/waldur_delete_tools.py:63-68 | The gate passes iff whoami answers 200 and, when the caller claims exactly "staff", the body is a dict whose `is_staff` is not the string "False". Any other claim passes on a 200 without the body being read. A non-200 answer gives "Could not verify user access (status N).". A staff claim contradicted by the body gives the override-denied message. A staff claim with a non-dict body gives the exception text. |
| Access.StaffCheckIsLiteral | src/waldur_post_tools.py:70-72 | A JSON `false` and a claim other than exactly "staff" both pass the gate. Only "staff" together with the string "False" is stopped. A "Staff" claim passes even with a list body, which "staff" does not. |
| DeleteTools.NextStep | src/waldur_delete_tools.py:70-126 | The short name is asked for iff both uuid and short_name are falsy. Otherwise the step is delete iff confirm is "Yes"/"yes", cancel iff it is "No"/"no", and a (re-)confirmation otherwise. Delete and confirm carry the payload's uuid. |
| DeleteTools.UuidWithoutConfirmAsks | src/waldur_delete_tools.py:90-105 | A truthy uuid with no confirm answer asks for confirmation and never deletes. |
| DeleteTools.DeleteStatusMessage | src/waldur_delete_tools.py:157-165 | The message starts with "Success!" iff the status is 204 or 202 (not 200). 401, 403 and 404 give the fixed texts. Any other status gives the fallback with the status and response text. |
| DeleteTools.DeleteFromWaldurParsed | src/waldur_delete_tools.py:49-129 | "not a staff" is refused with no request. Otherwise whoami is the first request. A DELETE to `<base><endpoint>/<uuid>/` is the second request iff the gate passes and the step is delete; that needs an explicit yes. The reply then reads the DELETE status. |
| DeleteTools.DeleteReplies | src/waldur_delete_tools.py:63-129 | Past the "not a staff" refusal, whoami is the only request on every path but delete. A stopping gate replies with its own message. The short-name step elicits the short name. The confirm step elicits a yes/no naming the payload's uuid. The cancel step replies "Deletion cancelled as per your request.". The delete step sends the DELETE for the payload's uuid and replies with its status message. |
| DeleteTools.DeleteWithoutUuidTargetsNone | src/waldur_delete_tools.py:70-108 | With a short name but no uuid, a yes still sends the DELETE, to `<base><endpoint>/None/`. |
| PatchTools.PatchStatusMessage | src/waldur_patch_tools.py:137-148 | The message starts with " Success!" iff the status is 200 or 201. 401, 403, 400 and 404 give fixed texts. Any other status gives the shared generic error for N. |
| PatchTools.PatchToWaldur | src/waldur_patch_tools.py:118-148 | A non-dict body gives the invalid-format text, and a falsy uuid the no-uuid text; neither sends a request or changes the dict. Otherwise "uuid" is removed from the dict in place, every other key is kept, and exactly one PATCH to `<base><endpoint>/<uuid>/` is sent with the remaining body. |
| PatchTools.PatchToWaldurParsed | src/waldur_patch_tools.py:48-96 | "not a staff" is refused with no request. Whoami comes first. A gate that stops replies with its own message after whoami alone. The PATCH is sent iff the gate passes and the payload's uuid is truthy, and the reply is then the PATCH's status message. A gate that passes without a truthy uuid elicits the uuid. Without a PATCH the payload is left untouched. |
| PostTools.MissingField | src/waldur_post_tools.py:75-127 | For projects, a falsy short_name is asked for before a falsy customer. For user-invitations, a falsy role is asked for. No prompt is given iff every rule for the endpoint holds. |
| PostTools.ShortNameAskedBeforeCustomer | src/waldur_post_tools.py:75-109 | A project payload missing both short_name and customer is asked for the short name first. |
| PostTools.PostStatusMessage | src/waldur_post_tools.py:167-176 | The message starts with " Success!" iff the status is 200 or 201. 401, 403 and 400 give fixed texts. Any other status gives the shared generic error for N. |
| Http.UnexpectedStatusMessage | src/waldur_patch_tools.py:147-148 | The generic patch/post error names the endpoint, quotes "(Error: N)" and does not read as a success. |
| PostTools.PostToWaldur | src/waldur_post_tools.py:155-176 | A body that is not a dict gives "Invalid user data format." with no request. Otherwise exactly one POST to `<base><endpoint>/` is sent with that body, and the reply reads its status. |
| PostTools.PostToWaldurParsed | src/waldur_post_tools.py:51-139 | "not a staff" is refused with no request. Otherwise one or two requests are sent, and the first is whoami with the normalised token. |
| PostTools.PostSentOnlyWhenCleared | src/waldur_post_tools.py:66-139 | The POST is sent iff the gate passes and no field is missing. It goes to `<base><endpoint>/` with the payload, and the tool replies with the POST's status message. A gate that passes with a field missing elicits that field. A failed gate replies with its message. |
| GetTools.EndpointMapPaths | src/waldur_get_tools.py:69-86 | "invoice" maps to "invoices/" and "marketplace-resource" to "marketplace-resources/". Every other entity maps to its own name plus "/". The plural forms themselves are not accepted. |
| GetTools.UuidReply | src/waldur_get_tools.py:104-125 | The uuid is returned iff the status is 200/201, the body is a non-empty list, and its first item is a dict with a truthy uuid. A non-dict first item gives the attribute error. A dict first item without a truthy uuid gives "I found E but it has no UUID field.". A 200/201 without a non-empty list gives the not-found text, as does 404. 401/403 give the fixed texts, and any other status gives "API returned status error: N.". |
| GetTools.EmptyListingIsNotFound | src/waldur_get_tools.py:104-123 | A 200 with an empty or non-list body reads exactly like a 404. |
| GetTools.GetUuid | src/waldur_get_tools.py:29-127 | The checks run in order: missing token, then missing entity (elicited), then projects/customers without a short name (elicited), then an unknown entity, which is answered "Sorry, I do not recognise the entity type 'E'.". At most one request is sent. It is sent iff all checks pass, it goes to the mapped endpoint, and a returned uuid implies it was sent. |
| GetTools.ShortNameOptionalForUsers | src/waldur_get_tools.py:50-93 | Users are looked up without a short name. Projects without one are elicited. |
| Paging.PageRequestQuery | src/waldur_get_tools.py:266-276 | Page request `p` carries the arguments with "page" overridden by `p`. |
| Paging.PageRequestsNumbered | src/waldur_get_tools.py:266-285 | The i-th request sent asks for page i+1. |
| Paging.PageFailure | src/waldur_get_tools.py:280-297 | A page is an error iff it is a 200/201 non-list, a 401, a 403, or any status other than 200/201/404. A 200/201 non-list is an unexpected format carrying the body, 401 is an authentication failure, 403 is access denied, and any other status is an API error carrying the status. |
| Paging.PageErrorTexts | src/waldur_get_tools.py:290-297 | A page failing with 401 gives the authentication text, 403 the access-denied text, and any other status outside 200/201/404 gives "API error: N.". |
| Paging.CrawlPageCount | src/waldur_get_tools.py:264-267 | The loop requests at least one page and never more than MAX_PAGES (10000). |
| Paging.CrawlGathersPages | src/waldur_get_tools.py:280-287 | A successful walk returns exactly the items of the pages it requested, in page order. |
| Paging.CrawlStopsOnlyAtLastPage | src/waldur_get_tools.py:280-295 | The page number advances only past a non-empty list page. The walk ends at the cap or on a page that is not one. |
| Paging.CrawlFailsOnLastPage | src/waldur_get_tools.py:288-297 | A failure comes from the last page requested, with that page's error; the pages already gathered are discarded. |
| Paging.EndlessServerHitsCap | src/waldur_get_tools.py:264-285 | Against a server that always returns items, exactly MAX_PAGES pages are requested. |
| Paging.FetchAllPages | src/waldur_get_tools.py:266-299 | The while loop ends with the outcome and page count of the page walk defined above. |
| Paging.CallWaldurApis | src/waldur_get_tools.py:237-314 | The requests are pages 1..n of `<base><endpoint>/`, with 1 <= n <= 10000. A listing has total_count equal to the number of items, which are the gathered page items. An error discards all data. |
| Listing.WithEssentialFields | src/waldur_get_tools.py:206-221 | An existing "field" is never overwritten, and every other key is kept. "field" is added, set to the table's list, exactly when the endpoint is in the table. |
| Listing.EssentialFieldsIdempotent | src/waldur_get_tools.py:219-221 | Injecting twice gives the same query as injecting once. |
| Listing.GetFromWaldur | src/waldur_get_tools.py:203-235 | The caller's payload is copied before the essential fields are added to the copy. The listing is the page walk with the injected query, within the page cap. |
| Listing.GetFromWaldurAsWritten | src/waldur_get_tools.py:203-235 | As written, every call ends by raising NameError for `logger`, and no request is sent. |
| Listing.CustomersQueryIsTheDefaultFields | src/waldur_get_tools.py:209-221 | A plain customers listing's query is exactly "field" set to the six customer fields. As written, this query is never sent. |
| RetrievalChunks.ParamTexts | src/retrieve_api_endpoint_tool.py:84-88 | One text per parameter, in order: "param: {name} — {description}", with missing parts rendered as "". |
| RetrievalChunks.MakeChunk | src/retrieve_api_endpoint_tool.py:66-106 | The chunk's method is the upper-cased key. Path, summary, description and parameters are copied, with missing ones defaulting to "", "" and []. The text is the stripped embedding string. |
| RetrievalChunks.ProcessApiSchema | src/retrieve_api_endpoint_tool.py:54-108 | The nested loops produce the chunks of the schema's paths in iteration order. There are none when "paths" is absent. |
| RetrievalChunks.EveryVerbKeyYieldsAChunk | src/retrieve_api_endpoint_tool.py:60-64 | Every lower-case verb key of every path yields its chunk. |
| RetrievalChunks.EndpointChunkOfKey | src/retrieve_api_endpoint_tool.py:61-64 | Within one path, every verb key yields its chunk. |
| RetrievalChunks.EveryChunkIsAVerbOnAPath | src/retrieve_api_endpoint_tool.py:60-64 | Every chunk has one of GET/POST/PUT/DELETE/PATCH and a path of the schema. More exactly, every chunk is the chunk made from some lower-case verb key of some path, so with EveryVerbKeyYieldsAChunk the chunks are exactly those. |
| RetrievalChunks.EndpointChunksAreVerbs | src/retrieve_api_endpoint_tool.py:61-64 | The chunks of one path carry that path and an upper-cased verb. |
| RetrievalChunks.UpperVerbs | src/retrieve_api_endpoint_tool.py:91-101 | Each verb key upper-cases to its HTTP name, and lower-casing that gives the key back. |
| RetrievalChunks.OnlyLowerCaseVerbs | src/retrieve_api_endpoint_tool.py:62-64 | Of "GET", "parameters" and "get", only "get" yields a chunk. |
| RetrievalChunks.EntityHintIsSecondSegment | src/retrieve_api_endpoint_tool.py:71-72 | The hint of `/a/b…` is the second segment `b`, whatever follows it. |
| RetrievalChunks.EntityHintOfShortPath | src/retrieve_api_endpoint_tool.py:71-72 | A path with fewer than two segments has the hint "". |
| RetrievalChunks.KeywordsTable | src/retrieve_api_endpoint_tool.py:75-82 | The five verb keys have keyword strings not ending in whitespace. Any key whose lower-cased form is not a verb has "". |
| RetrievalChunks.EmbeddingTextIsUnstripped | src/retrieve_api_endpoint_tool.py:90-96 | For a verb key the final strip changes nothing, and the text starts with "{VERB} {path} ". |
| RetrievalRecall.Embed | src/retrieve_api_endpoint_tool.py:163-169 | Entry i of `embedded_chunks` holds chunk i and the embedding of its text. |
| RetrievalRecall.BuildIndex | src/retrieve_api_endpoint_tool.py:175-181 | No chunks is an error. Otherwise the index has the first embedding's dimension, and vector i is embedding i, provided all embeddings have that length. |
| RetrievalRecall.RebuildIsAligned | src/retrieve_api_endpoint_tool.py:163-181 | A successful rebuild keeps chunk i, entry i and index vector i together, and fails with "no chunks" exactly when there are none. |
| RetrievalRecall.Kept | src/retrieve_api_endpoint_tool.py:196-197 | The kept hits are exactly those whose slot is not -1. |
| RetrievalRecall.Recall | src/retrieve_api_endpoint_tool.py:196-206 | A successful recall yields exactly one candidate per kept hit, so never more than the hits the search returned. |
| RetrievalRecall.RecallFailsOnlyOutOfRange | src/retrieve_api_endpoint_tool.py:196-198 | Recall fails iff some slot other than -1 lies outside the list, with Python's negative indexing. |
| RetrievalRecall.RecallOfWellFormed | src/retrieve_api_endpoint_tool.py:196-206 | For hits within range, candidate j is the entry at the j-th kept slot paired with that hit's distance, in search order. |
| RetrievalRecall.SlotsNameTheirChunks | src/retrieve_api_endpoint_tool.py:163-206 | After an aligned rebuild, each recalled candidate describes the chunk whose embedding fills the matched slot. |
| RetrievalRecall.NoMatchRecallsNothing | src/retrieve_api_endpoint_tool.py:196-197 | Hits that are all -1 recall nothing. |
| RetrievalRecall.FailureIsFinal | src/retrieve_api_endpoint_tool.py:196-198 | Once the hits seen so far contain an out-of-range slot, the recall of all hits fails with that same error. Later hits do not matter. |
| RetrievalRecall.AssembleRecall | src/retrieve_api_endpoint_tool.py:194-206 | The loop computes exactly the recall above, including its first out-of-range error. |
| RetrievalRecall.Retriever.Recalled | src/retrieve_api_endpoint_tool.py:147-206 | When the search returns at most n hits for n requested, as a FAISS search does, a successful retrieval yields at most k candidates. |
| RetrievalRecall.Retriever.constructor | src/retrieve_api_endpoint_tool.py:29-33 | A fresh process holds no chunks, embeddings or index. The cache files are given. |
| RetrievalRecall.Retriever.RetrieveRelevantApis | src/retrieve_api_endpoint_tool.py:147-206 | Chunks are loaded only when none are held. Both cache files present means they are used as they are. Otherwise embeddings are recomputed and written before the index is built, and a build error leaves the index unchanged. After a rebuild the index is aligned. The outcome is the recall of the search for the embedded query. It holds at most k candidates when the search keeps to its bound. After a success both cache files exist. |
| RetrievalRanking.Filter | src/retrieve_api_endpoint_tool.py:226-231 | A candidate is kept iff its verb equals the requested one ignoring case and "/" + entity occurs in its lower-cased path. No more candidates come out than went in. |
| RetrievalRanking.FilterDistributes | src/retrieve_api_endpoint_tool.py:225-230 | Filtering a concatenation is filtering each part and concatenating the results, so order and repetitions are kept. |
| RetrievalRanking.SortIsSorted | src/retrieve_api_endpoint_tool.py:233 | The sort orders by ascending score. |
| RetrievalRanking.SortIsPermutation | src/retrieve_api_endpoint_tool.py:233 | The sort only reorders: the multiset is unchanged. |
| RetrievalRanking.SortIsStable | src/retrieve_api_endpoint_tool.py:233 | The sort is stable: equal scores keep their relative order. |
| RetrievalRanking.InsertKeepsSorted | src/retrieve_api_endpoint_tool.py:233 | Inserting into a sorted list keeps it sorted. |
| RetrievalRanking.InsertIsStable | src/retrieve_api_endpoint_tool.py:233 | An inserted element lands after every equal-score element. |
| RetrievalRanking.TakeKeepsTheBest | src/retrieve_api_endpoint_tool.py:233-234 | The first n of a list sorted by score are at most n elements, sorted and drawn from the list. The whole list is kept when it is shorter than n. Every element scoring below the last kept one is kept. |
| RetrievalRanking.RankedKeepsTheBest | src/retrieve_api_endpoint_tool.py:222-234 | At most max_results matching candidates are kept, in ascending score. Matches are dropped only when the list is full, and never one scoring below the last one kept. |
| RetrievalRanking.PostFilterResults | src/retrieve_api_endpoint_tool.py:208-234 | The filter loop, sort and slice give exactly the ranked list above. |
| RetrievalRanking.SingularEntityMatchesPlural | src/retrieve_api_endpoint_tool.py:230 | "project" matches `/api/projects/` for "get" against "GET". |
| RetrievalRanking.HyphenatedPathDoesNotMatch | src/retrieve_api_endpoint_tool.py:230 | "projects" does not match `/api/user-projects/`. |
| RetrievalRanking.ShapeResponse | src/retrieve_api_endpoint_tool.py:290-307 | A message is present iff nothing survived. The message then quotes the query and the results are empty. Otherwise each result mirrors path, method, description and score in order. |
| RetrievalRanking.AnswerIsBounded | src/retrieve_api_endpoint_tool.py:287-307 | At most ten results are returned, all matching. The no-results message appears iff no recalled candidate matches. |
| RetrievalRanking.RetrieveApiEndpoint | src/retrieve_api_endpoint_tool.py:285-307 | The tool recalls k=20 candidates, ranks them with max_results=10 and shapes the reply. A recall error is passed on. The retriever's new state is as after RetrieveRelevantApis: chunks loaded if none were held, cache used as it is or rebuilt and written, index aligned or left as it was on a build error. After a successful answer both cache files exist, so the next call reads them. |

## Left out

- HTTP transport: `httpx` clients, timeouts, redirects, SSL flags, and the exception-to-message handlers ("Error connecting to the server: …", "Trouble connecting…", "Connection error: …"). Responses come from the `server` oracle.
- Non-dict whoami bodies under a "staff" claim are modelled by the text of their `.get` attribute error only. A whoami body that is not JSON at all (a `response.json()` exception) and other exceptions inside the gate are not modelled.
- Output formatting: `json.dumps` of a listing, `repr(data)[:100]` in the unexpected-format message, and Python's `str()` of containers inside messages. `PyStr` renders only scalars faithfully.
- Logging (`logging.info`, `logger.info`). For the unbound `logger`, see Findings.
- Schema and cache I/O: downloading and YAML-parsing the schema, `init_cache_dir`, file existence checks, and pickle/FAISS file formats. The schema is a parameter, and the cache files are fields of `Retriever`. The model records that loading from the cache does no staleness check. A failed cached-YAML parse leaves the schema unbound in the source; that case is not modelled.
- The embedding model and the FAISS index internals (float vectors, L2 distances). Both are parameters, and nothing is assumed about how the search ranks or how many hits it returns.
- RetrievalRecall.Retriever.Recalled: the bound of k candidates is stated only for a search that returns at most n hits when asked for n. The search oracle itself is not constrained. RetrievalRecall.Recall bounds its candidates by the hits it is given.
- Concurrency: `asyncio`, `run_in_executor` and the lazy module-global initialisation.
- `src/waldur_auth_tool.py` (the OIDC device flow) and `src/openportal_tools.py` are not part of this model. Neither are the prompt, framework wiring and script files.
- Environment reading in config.py:4-22. `validate_config` takes the values as a parameter.
- Case mapping (`lower()`, `upper()`) covers ASCII letters only. `strip()` is not simplified: it removes Python's full `str.isspace` set.
- Scores are integers rather than floats.
- RetrievalRanking.PostFilterResults: `list.sort` is the library's in-place stable sort. It is modelled as a stable insertion sort on values rather than in place.
- Payloads are JSON maps. A `payload` that is not a dict, and `null` summaries or descriptions in the schema, are not modelled.
- Listing.GetFromWaldur: models the intended behaviour, without the `logger` failure described under Findings.

## Findings

| source | as written | input that shows it | evidently intended | confidence | as-written member | corrected member |
|---|---|---|---|---|---|---|
| src/waldur_get_tools.py:222-226 | `get_from_waldur` logs through `logger`, which the module neither defines nor imports, so every call raises NameError before any request is made | `get_from_waldur` for endpoint "customers" with an empty payload | log the injection and go on to `call_waldur_apis` with the injected query | high, not executed | Listing.GetFromWaldurAsWritten, Listing.CustomersQueryIsTheDefaultFields | Listing.GetFromWaldur |

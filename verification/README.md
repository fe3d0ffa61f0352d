# Fastly KV store item resource: a Dafny model

This project models the decision logic of a Terraform provider resource that
manages single entries (`fastlystoreitems_kv`) in a Fastly KV store, plus the
provider's `Configure` step that resolves the API token and base URL.

The resource has three parts, and the model follows them:

- **Request builders** (`KvRequests`). The write (PUT), read (GET) and delete
  (DELETE) requests all target `{base}/resources/stores/kv/{storeId}/keys/{key}`,
  built by plain concatenation. Every request carries the `Fastly-Key` header.
  A write adds a `metadata` header only when the metadata text is non-empty,
  and adds the query `add=true` only when `failIfKeyExists` is set.
- **Response classifiers** (`KvItems`). Each operation maps an abstract
  transport `Outcome` to success or a `KVError`. An outcome is one of three
  things: the request could not be built, the client failed, or a response
  arrived with a status, a status text and a body that may or may not be
  readable. A `KVError` is a short label plus a detail, and its rendering is
  `label + "\n" + detail` (`Errors`). `KvVerdicts` gives an independent
  reference: an operation-agnostic reading of the status followed by a
  per-operation label table. The lemmas there show that the three classifiers
  agree with it.
- **Lifecycle** (`KvLifecycle`). Create, Read, Update and Delete act on the
  tracked state `{store_id, key, value, metadata}`. Create writes with
  fail-if-exists and Update writes without it. Read refreshes only the value.
  Delete needs exactly 204. Update warns when nothing changed but writes
  anyway. On error no state is written.
- **Provider configuration** (`Provider`). The token starts as the
  `FASTLY_API_KEY` environment value. A non-empty `api_key` replaces it, and
  then a non-empty `base_url` replaces it again. The source does this
  (`provider.go:76-78`) and the model reproduces it as written. The base URL
  handed to resources is always `https://api.fastly.com`. An empty token
  yields the "Missing API Token Configuration" error and no data.

The environment value, the decoded provider block and each request's
transport outcome are parameters. Nothing here performs I/O.

Behaviour of the code worth noting:

- A transport failure is labelled "HTTP Error". Only a request that could not
  be built is labelled "Client Error".
- Read on 404 reports an error. It does not drop the resource from state.
- Delete and read give no special meaning to 412. It is an unexpected
  response there.

## Model

| member | source | states |
|---|---|---|
| Errors.RenderRoundTrip | internal/provider/errors.go:10-12 | the rendered error splits back at its first newline into the label and the detail |
| Errors.SplitJoin | internal/provider/errors.go:11 | joining a newline-free text and any text with a newline, then splitting at the first newline, gives both back |
| Provider.ResolveToken | internal/provider/provider.go:61-78 | precedence of the token: a non-empty base_url wins, else a non-empty api_key, else the environment value; the token is empty iff all three are empty |
| Provider.Configure | internal/provider/provider.go:59-100 | resources and data sources get the same data; it is absent iff the token is empty, which is exactly when the one missing-token error is reported; otherwise it is the default client, the fixed API URL and the resolved token |
| Provider.BaseUrlSettingBecomesToken | internal/provider/provider.go:76-78 | a non-empty base_url becomes the credential and the base URL stays the fixed API URL |
| Provider.ConfigureDependsOnlyOnToken | internal/provider/provider.go:92-99 | two configurations resolving to the same token configure resources identically |
| KvRequests.ParseItemUrlRoundTrip | internal/provider/kv_resource.go:245 | the item URL parses back to its store id and key when the store id holds no '/' |
| KvRequests.ParseItemUrlSound | internal/provider/kv_resource.go:245 | whatever parses is the item URL of the parsed store id and key |
| KvRequests.ItemUrlInjective | internal/provider/kv_resource.go:245 | distinct identities with '/'-free store ids give distinct formatted URL texts |
| KvRequests.SlashInStoreIdAliases | internal/provider/kv_resource.go:245 | without that restriction two identities share one URL, since nothing is escaped |
| KvRequests.PutRequest | internal/provider/kv_resource.go:243-267 | the write is a PUT to the item URL with the value as body, exactly one or two headers: one Fastly-Key header holding the API key and a metadata header iff metadata is non-empty, and query text "add=true" iff fail-if-exists is set, else empty |
| KvRequests.DeleteRequest | internal/provider/kv_resource.go:309-321 | the delete is a DELETE to the same item URL with exactly one header, the Fastly-Key header, no query and no body |
| KvRequests.GetRequest | internal/provider/kv_resource.go:353-365 | the read is a GET to the same item URL with exactly one header, the Fastly-Key header, no query and no body |
| KvRequests.WriteRequestsDifferOnlyInQuery | internal/provider/kv_resource.go:262-267 | the write with and without fail-if-exists differ only in the query, which encodes as "add=true" for the former |
| KvItems.ClassifyPut | internal/provider/kv_resource.go:249-302 | success iff status 200; a build failure gives Client Error and a send failure HTTP Error without any status check; Key Conflict iff 412, No KV Store Found iff 404, unexpected iff any other non-200 status |
| KvItems.ClassifyDelete | internal/provider/kv_resource.go:315-346 | success iff status 204; key-not-found iff 404; unexpected iff any other status, 200 included; build and send failures as for the write |
| KvItems.ClassifyGet | internal/provider/kv_resource.go:359-398 | success iff 200 with a readable body, and the value is that body verbatim; key-not-found iff 404; unexpected iff not 200 or 404; Body Read Error iff 200 with an unreadable body |
| KvItems.UpdateKVStoreItem | internal/provider/kv_resource.go:235-303 | no request reaches the client exactly when the error is Client Error; a request that does is the write request; the write succeeds iff it was sent and answered with 200 |
| KvItems.DeleteKVStoreItem | internal/provider/kv_resource.go:305-347 | no request reaches the client exactly when the error is Client Error; a request that does is the delete request; the delete succeeds iff it was sent and answered with 204 |
| KvItems.GetKVStoreItem | internal/provider/kv_resource.go:349-399 | no request reaches the client exactly when the error is Client Error; a request that does is the read request; the read succeeds iff it was sent and answered with 200 and a readable body, whose text is the value |
| KvItems.StatusAloneDecides | internal/provider/kv_resource.go:278-302 | the write and delete results depend on the status and status text only, never on the body |
| KvItems.TransportFailuresUniform | internal/provider/kv_resource.go:249-276 | a build or send failure yields the same error in all three operations |
| KvVerdicts.PutFollowsVerdict | internal/provider/kv_resource.go:278-302 | the write's label is the status verdict (success 200) through the write label table |
| KvVerdicts.DeleteFollowsVerdict | internal/provider/kv_resource.go:332-346 | the delete's label is the status verdict (success 204) through the delete/read table, where 412 is unexpected |
| KvVerdicts.GetFollowsVerdict | internal/provider/kv_resource.go:375-398 | the read's label is the status verdict (success 200) through the same table, except an unreadable 200 body gives Body Read Error |
| KvLifecycle.Create | internal/provider/kv_resource.go:106-139 | Create sends one PUT of the planned value to the planned item URL with query "add=true"; it writes the plan as state iff the status is 200, and otherwise reports exactly one error whose detail ends with the rendered write error |
| KvLifecycle.Read | internal/provider/kv_resource.go:141-159 | Read sends the GET for the tracked identity; on 200 with a readable body it writes the prior state with only the value replaced by the body; otherwise it reports the rendered read error |
| KvLifecycle.UnchangedWarnings | internal/provider/kv_resource.go:174-179 | the advisory is the single "Skipping KV item Update." warning, present iff plan and state agree on value and metadata, and nothing else |
| KvLifecycle.Update | internal/provider/kv_resource.go:161-204 | Update warns iff value and metadata are unchanged, sends one PUT of the plan with an empty query, writes the plan iff the status is 200 and then reports only that advisory, and otherwise reports, after any warning, exactly the "Failed to update KV Store item" error whose detail ends with the rendered write error |
| KvLifecycle.Delete | internal/provider/kv_resource.go:206-229 | Delete sends the DELETE for the tracked identity, never writes state, reports exactly the delete-failure error iff the status is not 204, and reports nothing otherwise |
| KvLifecycle.CreateAndUpdateDifferOnlyInAddFlag | internal/provider/kv_resource.go:124-126 | Create and Update of the same plan send identical writes except that only Create's query asks to refuse an existing key, and they write the same state |
| KvLifecycle.UpdateWritesRegardless | internal/provider/kv_resource.go:174-192 | the prior state affects only the warning: the request, the state written and the presence of an error are the same for any prior state |
| KvLifecycle.WriteHeaders | internal/provider/kv_resource.go:256-260 | Create's and Update's writes carry the API key, plus a metadata header holding the planned metadata text iff that text is non-empty, and no other header |
| KvLifecycle.FailureReportsLabel | internal/provider/kv_resource.go:129-136 | a failed Create reports exactly one error whose detail ends with the rendered write error, whose first line is its label |
| KvLifecycle.ConfiguredWritesUseResolvedToken | internal/provider/provider.go:92-97 | after a successful Configure, Create writes to the fixed API host and carries the resolved token as its credential |

## Left out

- The HTTP client, reading the body and closing it are not modelled as I/O. The outcome of each request is an input.
- Logging the body on an unexpected write status is left out. It is a side effect with no effect on the result.
- Schema declarations are left out, including `RequiresReplace` on `store_id` and `key`. Terraform enforces them, not this code.
- The `Metadata` and `Schema` methods, the `ImportState` passthrough and the resource-level `Configure` type assertion are left out. They hold no decision logic.
- Failures decoding the plan, state or provider block are left out. The model starts from the decoded values.
- Unknown attribute values are left out. Attributes are either null or known.
- URL parsing and escaping inside request construction are left out. The model's URL is the formatted text before `http.NewRequest` parses it. Its query is only the `add` parameter the code adds.
- A store id or key containing '?' or '#' is split by that parsing, and this is not modelled. A '?' starts query parameters that are re-encoded next to `add`; a key `k?add=true` makes an Update send `add=true`. A '#' starts a fragment that is never sent, so keys `k#1` and `k#2` reach the same path.
- Query encoding is simplified: no key sorting and no escaping.
- Go canonicalises header names on `Header.Add`, so `metadata` goes out as `Metadata`. This is left out, and names are kept as written.
- How the remote store itself behaves is left out. The code only classifies responses.
- `main.go` and the acceptance tests are left out. They cover server start-up and a live account.
- KvItems.UpdateKVStoreItem: which outcome a request gets, including whether it can be built at all, is an input rather than a function of the URL. The model therefore says nothing about which base URLs or keys fail to build.

# Product search and live-agent routing, modelled in Dafny

This project models the core of a multi-tenant storefront assistant in Dafny.

The first part is the product search Lambda (`backend/lambda/searchFn`). It has two routes:

- `GET /search` returns a tenant's products, with their embedding vectors removed.
- `POST /search` ingests a batch of products. Each item is checked against the product schema. Its images are stored in object storage, a text embedding is fetched for it, and a filtered projection of it is written to the search index.

The second part is the Python server that routes a shopper's request between agents (`backend/ec2/live-gemini`). The model covers:

- the agent enum and its name parser;
- the `set_agent` tool;
- the `validate_products` tool;
- the process-wide `GlobalStore`;
- the agent catalogue text and the fold that picks an agent from the language model's response stream;
- the navigation agent's product-location summary.

The third part is the page index of the storefront's product carousel (`frontend/src/components/ProductCarousel.tsx`).

External services are function-valued inputs, each answering success with a value or failure. They cover object storage, the embedding service, the search index, the access-token provider, the language model stream and the product search. A service is a pure function of its arguments: asked twice with the same input, it answers the same.

Module layout, one file each:

- `wrappers.dfy`: `Option`, `Result`, and `All`, which is `Promise.all` over settled outcomes.
- `json.dfy`: JSON values, JavaScript and Python truthiness, key lookup.
- `text.dfy`: decimal rendering and reading, `join` and `split`, white space, `trimStart`, `strip` and `lower`.
- `errors.dfy`: `ServerError` and `handleError`.
- `product_schema.dfy`: the zod product schema.
- `images.dfy`: `uploadImages`.
- `embedding.dfy`: `fetchEmbedding`.
- `search_handler.dfy`: the Lambda handler.
- `search_properties.dfy`: end-to-end properties of the Lambda handler.
- `agent_types.dfy`, `global_store.dfy`, `router_agent.dfy`: the Python modules of the same names.
- `agent_selector.dfy`, `validate_products.dfy`: the tools `agent_selector_tool.py` and `validate_products_tool.py`.
- `navigation.dfy`: the location summary of `navigation_agent.py`.
- `carousel.dfy`: the product carousel.

Two behaviours of the handler are worth stating up front:

- Items run under `Promise.all`, so one upload, embedding or index failure fails the whole POST with a 500 (`Ingest`, `UpstreamFailureFailsBatch`).
- An unknown method and path answers 200 with an undefined body (`UnknownRouteUndefined`).

## Model

| member | source | states |
|---|---|---|
| Wrappers.All | backend/lambda/searchFn/src/index.ts:165-204 | `Promise.all` over settled outcomes succeeds iff every outcome succeeded, with the values in input order; otherwise it fails with the first failure in input order, all before it having succeeded |
| Errors.NewServerError | backend/lambda/searchFn/src/utils.ts:7-11 | a server error carries the given status and a body holding the message and optional detail |
| Errors.IsLoggedStatus | backend/lambda/searchFn/src/utils.ts:24 | no contract; defines the statuses written to the log: 500, 502 and 503 |
| Errors.HandleError | backend/lambda/searchFn/src/utils.ts:14-26 | a `ServerError` keeps its status and body; anything else becomes 500 "Internal server error" with no detail; the error is logged iff the status is 500, 502 or 503 |
| Errors.HandleErrorStable | backend/lambda/searchFn/src/utils.ts:14-26 | re-raising a handled error as a `ServerError` and handling it again gives the same response |
| Errors.HandleErrorHidesDetail | backend/lambda/searchFn/src/utils.ts:20-24 | two unexpected errors give identical responses whatever their details, and both are logged |
| ProductSchema.DataUriSubtypeMatches | backend/lambda/searchFn/src/utils.ts:30 | the subtype extractor finds a subtype iff the data-URI pattern matches, and it finds the letters before `;base64,` |
| ProductSchema.EmptyImageStringInvalid | backend/lambda/searchFn/src/utils.ts:28-32 | the empty string is not a valid image string: none of the three patterns accepts it |
| ProductSchema.ObjectIssues | backend/lambda/searchFn/src/utils.ts:34-56 | the schema reports no issue iff the object satisfies every field rule |
| ProductSchema.Strip | backend/lambda/searchFn/src/utils.ts:34-56 | the parsed value keeps exactly the schema's keys that the input has; every field other than reviews and location keeps its value unchanged |
| ProductSchema.StripKeepsValid | backend/lambda/searchFn/src/utils.ts:34-56 | stripping unknown keys from a valid product leaves a valid product |
| ProductSchema.Validate | backend/lambda/searchFn/src/utils.ts:34-56 | `safeParse` succeeds iff the item is a valid product, and then returns the stripped item, itself valid; a failure lists at least one issue |
| ProductSchema.RatingOutOfRangeRejected | backend/lambda/searchFn/src/utils.ts:47 | a review rating outside 1..5 rejects the whole item |
| ImageIngest.Classify | backend/lambda/searchFn/src/index.ts:42-57 | an image is a remote URL iff it starts with `http://` or `https://`; otherwise it is a data URI iff the data-URI pattern matches, split into subtype and payload; otherwise it is raw base64 |
| ImageIngest.ClassifyDataUriRoundTrip | backend/lambda/searchFn/src/index.ts:47-52 | assembling a data URI from a letter subtype and any payload and classifying it gives back that subtype and payload |
| ImageIngest.UpToSlash | backend/lambda/searchFn/src/index.ts:46 | the segment read is a slash-free prefix that ends at the first slash |
| ImageIngest.RemoteResolution | backend/lambda/searchFn/src/index.ts:45-46 | a fetched image keeps a non-empty content-type header, or defaults to `application/octet-stream`; its extension is never empty, and is the second segment of the content type when that segment is non-empty |
| ImageIngest.Resolve | backend/lambda/searchFn/src/index.ts:42-57 | raw base64 is stored as `image/jpeg` and `.jpg`; a data URI resolves to `image/<subtype>` iff its payload matches the full pattern, and otherwise fails with 400 "Invalid base64 image string"; a remote image resolves iff the fetch succeeds, and then takes its content type and extension from the reply's `Content-Type` header |
| ImageIngest.ObjectKey | backend/lambda/searchFn/src/index.ts:58 | the storage key lies under the tenant's folder `companyId/` and ends with `.` and the extension |
| ImageIngest.ObjectUrl | backend/lambda/searchFn/src/index.ts:65 | the public URL starts with `https://` and the bucket's S3 host, and ends with the key |
| ImageIngest.UploadOne | backend/lambda/searchFn/src/index.ts:40-65 | one image succeeds iff it resolves and its object is stored; it then returns the public object URL of key `companyId/sku_idx.ext` |
| ImageIngest.UploadImages | backend/lambda/searchFn/src/index.ts:39-67 | the upload succeeds iff every image does, and returns one URL per image in input order |
| ImageIngest.RemoteUploadUsesHeader | backend/lambda/searchFn/src/index.ts:40-65 | a stored remote image was fetched, and its object is stored under the extension and content type its `Content-Type` header gives |
| ImageIngest.UploadedUrlShape | backend/lambda/searchFn/src/index.ts:58-65 | every returned URL is the bucket URL followed by `companyId/sku_i.` and some extension |
| ImageIngest.ObjectKeysDistinct | backend/lambda/searchFn/src/index.ts:58 | images at different positions of one upload get different object keys, whatever their extensions |
| ImageIngest.OnlyRemoteFetches | backend/lambda/searchFn/src/index.ts:42-57 | resolving an image can only fail for a remote image or a data URI; raw base64 always resolves |
| Embedding.FetchEmbedding | backend/lambda/searchFn/src/index.ts:69-96 | succeeds iff the reply is OK and `predictions[0].embeddings.values` is an array, which it returns; a non-OK reply is 500 "Failed to fetch embedding: " with the reply text; a malformed OK reply is 500 "Invalid embedding response" |
| Embedding.WellFormedReplyAccepted | backend/lambda/searchFn/src/index.ts:92-95 | a reply with an array at `predictions[0].embeddings.values` yields exactly that array |
| SearchHandler.CorsHeaders | backend/lambda/searchFn/src/index.ts:212-219 | the origin header is echoed, or `*` when absent; the allowed methods and headers are fixed |
| SearchHandler.DigitPrefix | backend/lambda/searchFn/src/index.ts:122 | the longest prefix of decimal digits |
| SearchHandler.ParseSigned | backend/lambda/searchFn/src/index.ts:122 | `parseInt` after the white space: nothing numeric at the start is NaN; a leading digit gives a non-negative number; a negative result needs a leading `-` (`SearchProperties.ParseIntReadsRendered` gives the value) |
| SearchHandler.ParseInt | backend/lambda/searchFn/src/index.ts:122 | `parseInt(s, 10)`: a blank string is NaN; a negative result needs a `-` right after the leading white space |
| SearchHandler.SearchSize | backend/lambda/searchFn/src/index.ts:119-127 | no `size` means 4; a `size` that parses to a positive integer is used; anything else is 400 "Invalid size parameter"; a size used is always positive |
| SearchHandler.Spread | backend/lambda/searchFn/src/index.ts:146-147 | object rest on a value: an object gives its fields; a string gives keys `"0"`…`"n-1"` holding its one-character strings; an array gives the same keys holding its elements; a number, boolean or null gives `{}` |
| SearchHandler.IndexFieldsKeys | backend/lambda/searchFn/src/index.ts:146-147 | the index fields of a list have exactly the keys `"0"`…`"n-1"` |
| SearchHandler.IndexFieldsValues | backend/lambda/searchFn/src/index.ts:146-147 | the index field `"i"` of a list holds its i-th element |
| SearchHandler.IndexedSpreadKeepsAll | backend/lambda/searchFn/src/index.ts:146-147 | removing `embedding` from the spread of a string or array removes nothing, since every index key starts with a digit |
| SearchHandler.StripHit | backend/lambda/searchFn/src/index.ts:145-151 | a hit with a truthy `_source` yields the spread of that source without `embedding` (an object's fields, or the index keys of a string or array); a hit whose `_source` is missing or falsy, and any non-null hit that is not an object, yields `{}`; a null hit throws; no result holds `embedding` |
| SearchHandler.StringSourceSpread | backend/lambda/searchFn/src/index.ts:145-151 | a hit whose `_source` is the string `"ab"` yields `{"0": "a", "1": "b"}` |
| SearchHandler.HitsOf | backend/lambda/searchFn/src/index.ts:145-151 | absent hits give `[]`; a hits array gives one stripped source per hit, in order |
| SearchHandler.Retrieve | backend/lambda/searchFn/src/index.ts:118-154 | a bad size is 400 before the index is queried; otherwise the tenant's query is sent with that size and the stripped hits are returned |
| SearchHandler.Project | backend/lambda/searchFn/src/index.ts:34-37 | the filtered document has exactly the allowed keys the document has, with unchanged values |
| SearchHandler.ProjectIdempotent | backend/lambda/searchFn/src/index.ts:190-193 | filtering an already filtered document changes nothing |
| SearchHandler.WithStoredImages | backend/lambda/searchFn/src/index.ts:171-177 | a missing or empty image list is left as it is; otherwise the images are replaced by the uploaded URLs and every other field is kept; an upload failure becomes 500 "Failed to upload one or more images" |
| SearchHandler.Stamped | backend/lambda/searchFn/src/index.ts:181-188 | the document gains its embedding and both timestamps set to the same instant, and keeps every other field |
| SearchHandler.TenantedImages | backend/lambda/searchFn/src/index.ts:168-177 | on the tenanted document, a non-empty image list is uploaded: an upload failure is a 500, and a success stores the returned URLs as `images` |
| SearchHandler.Embedded | backend/lambda/searchFn/src/index.ts:179-193 | the embedding step fails iff the fetch for the document without images fails, and then with 500 "Failed to get embedding"; otherwise the document has exactly the allowed keys among the fields plus tenant, embedding and timestamps, holds the fetched vector and the clock reading, and keeps every other field, `images` included |
| SearchHandler.Enrich | backend/lambda/searchFn/src/index.ts:168-193 | the indexed document has exactly the allowed keys among the validated fields plus tenant, embedding and timestamps; the embedding is fetched for the document without its images; an empty image list is kept; failures are only the upload and embedding 500s |
| SearchHandler.EnrichedShape | backend/lambda/searchFn/src/index.ts:186-193 | filtering the stamped document keeps the added keys and every allowed key of the validated item |
| SearchHandler.PrepareItem | backend/lambda/searchFn/src/index.ts:166-193 | an invalid item becomes a rejected result carrying its issues; a valid one is enriched |
| SearchHandler.IngestItem | backend/lambda/searchFn/src/index.ts:165-204 | an invalid item is reported with its issues, not thrown; a valid one is indexed iff upload, embedding and index write all succeed, and any failure is one of the three 500s |
| SearchHandler.BatchOf | backend/lambda/searchFn/src/index.ts:164 | an array body is the batch; any other value is a batch of one |
| SearchHandler.Outcomes | backend/lambda/searchFn/src/index.ts:165-204 | one outcome per item, in order, item i's pipeline stamped with its own clock reading `clock(i)` |
| SearchHandler.Ingest | backend/lambda/searchFn/src/index.ts:156-206 | a missing or empty body is 400; unparsable JSON is 400; otherwise it succeeds iff every item's pipeline does, with one result per item in order, and fails with the first failing item's error |
| SearchHandler.Dispatch | backend/lambda/searchFn/src/index.ts:106-208 | the tenant header is checked first (400), then the access token (500); only then does `GET /search` go to retrieval with the tenant, `POST /search` to ingestion with the tenant and token, and any other endpoint answer an undefined body; a success implies a valid header and a usable token |
| SearchHandler.Handle | backend/lambda/searchFn/src/index.ts:98-222 | every response carries the CORS headers; a dispatch success is 200 with its body; a failure is the handled error's status and body |
| SearchProperties.MissingCompanyIdRejected | backend/lambda/searchFn/src/index.ts:107-109 | a missing, non-string or blank tenant header is 400 "Missing or invalid company-id header" on every route |
| SearchProperties.UnusableTokenRejected | backend/lambda/searchFn/src/index.ts:111-115 | with a valid header, a missing token is 500 "Failed to obtain Google access token", and a token error is 500 "Internal server error", on every route |
| SearchProperties.UnknownRouteUndefined | backend/lambda/searchFn/src/index.ts:117-208 | any other method and path answers 200 with an undefined body |
| SearchProperties.ParseIntReadsRendered | backend/lambda/searchFn/src/index.ts:122 | `parseInt` skips leading white space, reads an optional minus and the decimal digits, and ignores the rest |
| SearchProperties.TrimStartSkipsBlank | backend/lambda/searchFn/src/index.ts:122 | leading white space is skipped exactly |
| SearchProperties.ParseIntNoDigits | backend/lambda/searchFn/src/index.ts:122-125 | a string whose first non-blank character is neither a sign nor a digit is NaN |
| SearchProperties.SizeDefaultsAndZeroRejected | backend/lambda/searchFn/src/index.ts:119-127 | no size means 4, and size `0` is 400 |
| SearchProperties.GetReturnsStrippedHits | backend/lambda/searchFn/src/index.ts:118-154 | a valid GET answers 200 with one stripped hit per index hit, in order, none holding an embedding; each slot is the spread of a truthy `_source` without `embedding`, and `{}` otherwise |
| SearchProperties.AbsentHitsEmpty | backend/lambda/searchFn/src/index.ts:151 | a search reply without hits gives an empty list |
| SearchProperties.PostDispatchesToIngest | backend/lambda/searchFn/src/index.ts:156-207 | a POST with a valid tenant header and a usable token goes to ingestion with that tenant and token |
| SearchProperties.MissingBodyRejected | backend/lambda/searchFn/src/index.ts:157 | a POST without a body is 400 "Missing request body" |
| SearchProperties.InvalidJsonRejected | backend/lambda/searchFn/src/index.ts:159-163 | a POST whose body does not parse is 400 "Invalid JSON in request body" |
| SearchProperties.ItemSlot | backend/lambda/searchFn/src/index.ts:165-200 | an item's slot that does not throw says invalid, with the schema's issues, exactly when the item breaks the schema |
| SearchProperties.BatchResultsInOrder | backend/lambda/searchFn/src/index.ts:164-206 | when no pipeline throws, the answer is 200 with one result per item in order, and an item is reported invalid iff it breaks the schema |
| SearchProperties.SingleObjectIsBatchOfOne | backend/lambda/searchFn/src/index.ts:164 | a single object body yields exactly one result |
| SearchProperties.UpstreamFailureFailsBatch | backend/lambda/searchFn/src/index.ts:165-204 | one item's upload, embedding or index failure makes the whole request a 500, whatever the other items do |
| SearchProperties.AddedKeysOutsideSchema | backend/lambda/searchFn/src/index.ts:169-188 | the keys the handler adds are not schema keys, so they never clash with validated fields |
| SearchProperties.IndexedDocumentShape | backend/lambda/searchFn/src/index.ts:166-199 | the indexed document has only allowed keys; it holds the tenant, the embedding of the document without images, and equal timestamps; every other validated field is copied |
| SearchProperties.EnrichedDocumentShape | backend/lambda/searchFn/src/index.ts:168-193 | for a validated item, the filtered document has exactly the item's keys plus tenant, embedding and timestamps, all allowed, with the other fields copied |
| SearchProperties.EmptyImagesKept | backend/lambda/searchFn/src/index.ts:171-177 | an empty image list skips the upload and is indexed as `[]` |
| SearchProperties.EmptyDataUriPassesSchemaButFailsUpload | backend/lambda/searchFn/src/index.ts:47-49 | `data:image/png;base64,` passes the schema but fails the upload with 400 |
| SearchProperties.UploadFailureIsFatal | backend/lambda/searchFn/src/index.ts:171-176 | any item whose upload fails ends in 500 "Failed to upload one or more images" |
| Text.NatToStringRoundTrip | backend/lambda/searchFn/src/index.ts:122 | reading the decimal rendering of a number gives the number back |
| Text.JoinPart | backend/ec2/live-gemini/src/live_gemini/agents/navigation_agent.py:21 | each joined part appears, in order, at its offset |
| Text.JoinSeparator | backend/ec2/live-gemini/src/live_gemini/agents/router_agent.py:11 | consecutive joined parts are separated by exactly one separator |
| Text.SplitJoin | backend/ec2/live-gemini/src/live_gemini/agents/navigation_agent.py:21 | splitting a join on its one-character separator gives back the parts when none contains it |
| AgentTypes.Name | backend/ec2/live-gemini/src/live_gemini/enums/agent_types.py:4-7 | no contract; defines the member names `COMPARISON`, `NAVIGATION`, `PRODUCT_INFO`, `FALLBACK` |
| AgentTypes.Value | backend/ec2/live-gemini/src/live_gemini/enums/agent_types.py:4-7 | no contract; defines the member values `Comparison`, `Navigation`, `ProductInfo`, `Fallback` |
| AgentTypes.LoweredName | backend/ec2/live-gemini/src/live_gemini/enums/agent_types.py:9-11 | no contract; defines each member name in lower case, written out (`AgentTypes.LoweredNameCorrect` states that it is the name lowered) |
| AgentTypes.ValidValues | backend/ec2/live-gemini/src/live_gemini/enums/agent_types.py:9-11 | the valid values are the four lowered member names, not the member values |
| AgentTypes.FindByName | backend/ec2/live-gemini/src/live_gemini/enums/agent_types.py:16-18 | finds a member iff one in the list has that lowered name, and then returns such a member |
| AgentTypes.FromString | backend/ec2/live-gemini/src/live_gemini/enums/agent_types.py:13-19 | parsing succeeds iff the stripped, lowered input is a valid value, with the member of that lowered name; otherwise it raises AttributeError for the missing `CUSTOMER_SERVICE` |
| AgentTypes.FromStringName | backend/ec2/live-gemini/src/live_gemini/enums/agent_types.py:13-19 | every member's name parses back to that member |
| AgentTypes.FromStringIgnoresCaseAndSpace | backend/ec2/live-gemini/src/live_gemini/enums/agent_types.py:15-17 | any spelling that lowers to a member's lowered name, padded with white space, parses to that member |
| AgentTypes.FromStringValue | backend/ec2/live-gemini/src/live_gemini/enums/agent_types.py:3-19 | a member's value parses iff the member is not PRODUCT_INFO, because "ProductInfo" lowers to no name |
| AgentSelector.EnumValues | backend/ec2/live-gemini/src/live_gemini/tools/agent_selector_tool.py:15 | the tool's enum lists the member values in declaration order, and a string is in it iff it is some member's value |
| AgentSelector.Execute | backend/ec2/live-gemini/src/live_gemini/tools/agent_selector_tool.py:23-26 | missing arguments or a missing `agent_type` give "Fallback"; non-dict arguments raise; otherwise the value is returned unchecked |
| AgentSelector.ExecuteMayLeaveEnum | backend/ec2/live-gemini/src/live_gemini/tools/agent_selector_tool.py:25-26 | a value outside the declared enum is passed through |
| AgentSelector.ExecuteDefaultInEnum | backend/ec2/live-gemini/src/live_gemini/tools/agent_selector_tool.py:25 | the default selection is a declared enum value |
| GlobalStore.Construct | backend/ec2/live-gemini/src/live_gemini/utils/global_store.py:5-8 | construction returns the cached instance when there is one, and creates and caches one otherwise; the dict is untouched |
| GlobalStore.Set | backend/ec2/live-gemini/src/live_gemini/utils/global_store.py:10-11 | setting a key stores the value under it, adds only that key, and keeps every other entry |
| GlobalStore.Get | backend/ec2/live-gemini/src/live_gemini/utils/global_store.py:13-14 | `get(key)` reads the stored value, or None for a missing key |
| GlobalStore.GetOr | backend/ec2/live-gemini/src/live_gemini/utils/global_store.py:13-14 | a stored key reads its value and a missing key reads the default |
| GlobalStore.Clear | backend/ec2/live-gemini/src/live_gemini/utils/global_store.py:16-18 | after clearing, the dict holds only an empty conversation history |
| GlobalStore.GetAfterSet | backend/ec2/live-gemini/src/live_gemini/utils/global_store.py:10-14 | a key reads what was last set under it |
| GlobalStore.SetLeavesOthers | backend/ec2/live-gemini/src/live_gemini/utils/global_store.py:10-14 | setting one key does not change what any other key reads |
| GlobalStore.ClearIdempotent | backend/ec2/live-gemini/src/live_gemini/utils/global_store.py:16-18 | clearing twice is clearing once |
| GlobalStore.ClearLeavesHistoryOnly | backend/ec2/live-gemini/src/live_gemini/utils/global_store.py:16-18 | after clearing, the history reads `[]` and every other key reads its default |
| GlobalStore.SingletonAfterFirst | backend/ec2/live-gemini/src/live_gemini/utils/global_store.py:2-8 | once an instance exists, every later construction returns it, whatever is set or cleared in between |
| GlobalStore.SingleInstance | backend/ec2/live-gemini/src/live_gemini/utils/global_store.py:2-8 | from process start, all constructions return the same object |
| ValidateProducts.KeyOf | backend/ec2/live-gemini/src/live_gemini/tools/validate_products_tool.py:31-40 | a value is unhashable iff it is a list or a dict; a string is keyed by itself |
| ValidateProducts.BoolKeysAreNumbers | backend/ec2/live-gemini/src/live_gemini/tools/validate_products_tool.py:31-32 | `True` and `1.0`, and `False` and `0.0`, are the same dict key, and `True` is not the string "True" |
| ValidateProducts.Elements | backend/ec2/live-gemini/src/live_gemini/tools/validate_products_tool.py:33 | iteration yields a list's items, a dict's keys as strings, or a string's characters; None, numbers and booleans are not iterable |
| ValidateProducts.SourceSku | backend/ec2/live-gemini/src/live_gemini/tools/validate_products_tool.py:32-34 | a dict entry with a `_source` dict holding `sku` is keyed by that sku; entries without `_source` are skipped; a string or list `_source` that contains "sku" raises |
| ValidateProducts.SkuMap | backend/ec2/live-gemini/src/live_gemini/tools/validate_products_tool.py:31-35 | the SKU map is built iff no entry raises |
| ValidateProducts.SkuMapKeys | backend/ec2/live-gemini/src/live_gemini/tools/validate_products_tool.py:31-35 | a SKU is in the map iff some entry is keyed by it |
| ValidateProducts.SkuMapLastWins | backend/ec2/live-gemini/src/live_gemini/tools/validate_products_tool.py:31-35 | for a SKU shared by several entries, the map holds the last entry's `_source` |
| ValidateProducts.Select | backend/ec2/live-gemini/src/live_gemini/tools/validate_products_tool.py:37-41 | selection succeeds iff every requested SKU is hashable; it returns at most one product per request, each a product of the map |
| ValidateProducts.SelectAppend | backend/ec2/live-gemini/src/live_gemini/tools/validate_products_tool.py:37-41 | selecting for two request lists in a row is selecting for each and concatenating, so order follows the requests |
| ValidateProducts.SelectOne | backend/ec2/live-gemini/src/live_gemini/tools/validate_products_tool.py:37-41 | a known SKU selects its product and an unknown one selects nothing |
| ValidateProducts.SkippedEntryIgnored | backend/ec2/live-gemini/src/live_gemini/tools/validate_products_tool.py:34 | an entry that is not a dict with `_source` adds nothing to the map |
| ValidateProducts.LaterDuplicateWins | backend/ec2/live-gemini/src/live_gemini/tools/validate_products_tool.py:31-41 | of two products with the same SKU, the later one is returned |
| ValidateProducts.Execute | backend/ec2/live-gemini/src/live_gemini/tools/validate_products_tool.py:24-43 | non-dict arguments raise; a dict with `results` is unwrapped once before the products are read, and any other value is used as it is |
| ValidateProducts.NoRequestNoProducts | backend/ec2/live-gemini/src/live_gemini/tools/validate_products_tool.py:26 | with no requested products the tool returns an empty list |
| Navigation.PartsOf | backend/ec2/live-gemini/src/live_gemini/agents/navigation_agent.py:13-17 | a line's parts exist iff the product is a dict whose location, when present, is a dict; missing name, aisle, section or shelf read "Unknown" |
| Navigation.Line | backend/ec2/live-gemini/src/live_gemini/agents/navigation_agent.py:18-20 | no contract; defines `name: aisle A, section S, shelf H` over the rendered parts (`Navigation.LineFormat` states it for a concrete product) |
| Navigation.ProductLine | backend/ec2/live-gemini/src/live_gemini/agents/navigation_agent.py:13-20 | a product yields a line iff its parts can be read, i.e. it is a dict whose location is absent or a dict |
| Navigation.ProductsOf | backend/ec2/live-gemini/src/live_gemini/agents/navigation_agent.py:12 | a list is visited item by item; an empty dict or string visits nothing; anything else raises |
| Navigation.Locations | backend/ec2/live-gemini/src/live_gemini/agents/navigation_agent.py:11-21 | without products, the summary is empty |
| Navigation.LinesOf | backend/ec2/live-gemini/src/live_gemini/agents/navigation_agent.py:11-20 | one line per product, line j being product j's line |
| Navigation.LocationsLines | backend/ec2/live-gemini/src/live_gemini/agents/navigation_agent.py:11-21 | when every product yields a line, the summary is those lines joined by newlines, each at its offset in product order |
| Navigation.LocationsFailFirst | backend/ec2/live-gemini/src/live_gemini/agents/navigation_agent.py:12-17 | one product that is not a dict, or whose location is not a dict, makes the summary raise |
| Navigation.LineFormat | backend/ec2/live-gemini/src/live_gemini/agents/navigation_agent.py:18-20 | a product with all four strings reads `name: aisle A, section S, shelf H` |
| Navigation.EmptyProductUnknown | backend/ec2/live-gemini/src/live_gemini/agents/navigation_agent.py:13-17 | an empty product reads "Unknown" in all four places |
| Navigation.LocationsSplit | backend/ec2/live-gemini/src/live_gemini/agents/navigation_agent.py:11-21 | splitting the summary on newlines gives back the product lines when none contains a newline |
| Navigation.NoProductsEmpty | backend/ec2/live-gemini/src/live_gemini/agents/navigation_agent.py:12 | no products key, or an empty list, gives the empty summary |
| RouterAgent.Block | backend/ec2/live-gemini/src/live_gemini/agents/router_agent.py:12-17 | no contract; defines one agent's block (`RouterAgent.BlockStartsWithName`, `BlockCapability` and `BlockQuestion` state where each part sits) |
| RouterAgent.Blocks | backend/ec2/live-gemini/src/live_gemini/agents/router_agent.py:11-19 | one block per agent, in catalogue order |
| RouterAgent.BlockStartsWithName | backend/ec2/live-gemini/src/live_gemini/agents/router_agent.py:13-14 | a block opens with the agent's name, `:`, a newline, and the description |
| RouterAgent.BlockCapability | backend/ec2/live-gemini/src/live_gemini/agents/router_agent.py:15 | every capability appears in its block, in order, at its bullet |
| RouterAgent.BlockQuestion | backend/ec2/live-gemini/src/live_gemini/agents/router_agent.py:16 | every sample question appears in its block, in order, at its bullet |
| RouterAgent.FormattedBlock | backend/ec2/live-gemini/src/live_gemini/agents/router_agent.py:11-19 | every block appears in the catalogue text at its offset, in catalogue order |
| RouterAgent.FormattedSeparator | backend/ec2/live-gemini/src/live_gemini/agents/router_agent.py:11 | consecutive blocks are separated by exactly one blank line |
| RouterAgent.CatalogueOrder | backend/ec2/live-gemini/src/live_gemini/constants/agent_info.py:9-80 | the catalogue names Navigation, ProductInfo, Comparison and Fallback, in that order, by their enum values |
| RouterAgent.Formatted | backend/ec2/live-gemini/src/live_gemini/agents/router_agent.py:11-19 | `FORMATTED_AGENTS`: no agents give `""`, one agent gives its block alone (`RouterAgent.FormattedBlock` and `FormattedSeparator` state the general case) |
| RouterAgent.HasType | backend/ec2/live-gemini/src/live_gemini/agents/router_agent.py:43-46 | no contract; defines a dict response whose `type` is the given one |
| RouterAgent.Interrupts | backend/ec2/live-gemini/src/live_gemini/agents/router_agent.py:43-44 | no contract; defines a status response whose `interrupted` is truthy |
| RouterAgent.Calls | backend/ec2/live-gemini/src/live_gemini/agents/router_agent.py:46-51 | no contract; defines a tool response from the named tool |
| RouterAgent.Raised | backend/ec2/live-gemini/src/live_gemini/agents/router_agent.py:46-52 | a response can raise only if it calls `set_agent` or `retrieve_products` |
| RouterAgent.Step | backend/ec2/live-gemini/src/live_gemini/agents/router_agent.py:42-52 | one response raises iff it is a `set_agent` whose selection raises or a `retrieve_products` whose search raises |
| RouterAgent.LastCall | backend/ec2/live-gemini/src/live_gemini/agents/router_agent.py:46-52 | finds the last response from a tool, or none when no response comes from it |
| RouterAgent.Run | backend/ec2/live-gemini/src/live_gemini/agents/router_agent.py:41-52 | the loop completes iff no response raises, and otherwise stops at the first that does |
| RouterAgent.RunInterrupted | backend/ec2/live-gemini/src/live_gemini/agents/router_agent.py:43-44 | a completed loop has recorded an interruption iff some status response is truthily interrupted |
| RouterAgent.RunAgentType | backend/ec2/live-gemini/src/live_gemini/agents/router_agent.py:46-49 | a completed loop holds the agent selected by the last `set_agent` response, or the initial one when there is none |
| RouterAgent.RunRetrieved | backend/ec2/live-gemini/src/live_gemini/agents/router_agent.py:51-52 | a completed loop holds the products of the last `retrieve_products` response, or the initial value when there is none |
| RouterAgent.Services | backend/ec2/live-gemini/src/live_gemini/agents/router_agent.py:30-31 | reading services raises iff the stored company info is truthy and not a dict |
| RouterAgent.Failed | backend/ec2/live-gemini/src/live_gemini/agents/router_agent.py:60-66 | the exception handler's dict: agent type "Fallback", not interrupted, no `retrieved_products` key, and the error text |
| RouterAgent.DetermineAgent | backend/ec2/live-gemini/src/live_gemini/agents/router_agent.py:22-66 | the result has no error iff nothing raises; any exception gives the handler's dict; otherwise it is interrupted iff some status response is truthily interrupted |
| RouterAgent.NoSelectionFallback | backend/ec2/live-gemini/src/live_gemini/agents/router_agent.py:23-58 | without a `set_agent` response, the agent is "Fallback" |
| RouterAgent.LastSelectionWins | backend/ec2/live-gemini/src/live_gemini/agents/router_agent.py:46-49 | when nothing raises, the last `set_agent` response determines the agent |
| RouterAgent.LastSearchWins | backend/ec2/live-gemini/src/live_gemini/agents/router_agent.py:51-58 | when nothing raises, the products returned are those of the last product search |
| RouterAgent.LaterSelectionOverrides | backend/ec2/live-gemini/src/live_gemini/agents/router_agent.py:46-49 | a `set_agent` response appended to the stream overrides every earlier one |
| RouterAgent.NonDictIgnored | backend/ec2/live-gemini/src/live_gemini/agents/router_agent.py:42 | responses that are not dicts change nothing |
| RouterAgent.ExceptionFallback | backend/ec2/live-gemini/src/live_gemini/agents/router_agent.py:60-66 | any exception gives "Fallback", not interrupted, no products and an error |
| RouterAgent.CompanyInfoNotDict | backend/ec2/live-gemini/src/live_gemini/agents/router_agent.py:30-31 | a truthy company info that is not a dict makes routing fail before the model is consulted |
| RouterAgent.SelectionMayLeaveEnum | backend/ec2/live-gemini/src/live_gemini/agents/router_agent.py:49 | the chosen agent is passed on unchecked, so it can lie outside the enum |
| Carousel.ItemsPerView | frontend/src/components/ProductCarousel.tsx:25 | a page holds at least one card, and fewer in the compact layout |
| Carousel.MaxIndex | frontend/src/components/ProductCarousel.tsx:26 | the last start index is 0 when every card fits, and otherwise leaves exactly one full last page |
| Carousel.Apply | frontend/src/components/ProductCarousel.tsx:28-34 | Previous moves down by one but not below 0; Next moves up by one but not above `maxIndex` |
| Carousel.Presses | frontend/src/components/ProductCarousel.tsx:28-34 | no contract; defines the index after a run of presses (`Carousel.PressesStayInRange` and `Carousel.NextReaches` state its range and reach) |
| Carousel.PressesStayInRange | frontend/src/components/ProductCarousel.tsx:28-34 | from an index in range, any run of Previous and Next presses keeps the index in `[0, maxIndex]` |
| Carousel.FromStartInRange | frontend/src/components/ProductCarousel.tsx:24-34 | starting at 0, the index stays in `[0, maxIndex]` whatever the user presses |
| Carousel.NextReaches | frontend/src/components/ProductCarousel.tsx:32-34 | k presses of Next reach page k when nothing is clamped |
| Carousel.NextThenPrevious | frontend/src/components/ProductCarousel.tsx:28-34 | Previous undoes Next below the last page |
| Carousel.Render | frontend/src/components/ProductCarousel.tsx:36-81 | a plain grid iff every card fits on one page; otherwise Previous is disabled iff the index is 0, Next iff the index is at least `maxIndex`, and the label reads `index+1` to the page end, which is `index+perView` when that page fits and never beyond the count, of the count |
| Carousel.DisabledButtonsDoNothing | frontend/src/components/ProductCarousel.tsx:62-75 | a disabled button would not move an index that is in range |
| Carousel.LabelFullPage | frontend/src/components/ProductCarousel.tsx:80 | for an index in range, the label satisfies `1 <= first <= last <= count` and names exactly one page of cards |
| Carousel.LastPageEndsAtCount | frontend/src/components/ProductCarousel.tsx:80 | the label ends at the product count iff the index is `maxIndex` |
| Carousel.StaleIndexAfterShrink | frontend/src/components/ProductCarousel.tsx:24-26 | the index is not re-clamped when the product list shrinks: after paging to the end of ten products, six products read `7-6 of 6` |

## Left out

- Serialisation: the response body is a typed value. `JSON.stringify`, `JSON.parse` and the shape of the serialised text are not modelled; parsing is an input that answers a value or nothing.
- Headers: the tenant header is a string or absent. The non-string case of the `typeof` test cannot arise in this model.
- External services: object storage, the embedding endpoint, the search index, the token provider, the language model stream and the product search are inputs, each a pure function of its arguments. Their network behaviour, retries and side effects are not modelled. In particular, the objects written to storage exist only as the URLs returned.
- Concurrency: `Promise.all` is modelled over settled outcomes in input order. With real concurrency the rejection that wins is the first in time, not necessarily the first in order.
- SearchHandler.Ingest: reports the first failing item in input order; the source reports whichever rejection settles first.
- Base64 decoding: payloads are opaque strings. `Buffer.from(..., 'base64')` is lenient and never throws, so no decoding failure is modelled.
- Random scoring: the random seed is an input.
- Clock: each item of a batch reads the clock once (`new Date()` inside its own pipeline); item i's reading is the input `clock(i)`. The model does not relate the readings of different items.
- SearchHandler.Spread: a string spreads into one key per Unicode character; JavaScript spreads it per UTF-16 code unit, which differs for characters outside the Basic Multilingual Plane.
- Numbers: prices and ratings are mathematical reals. NaN, Infinity, floating-point rounding and `parseInt` precision loss on very long digit strings are not modelled.
- zod: only the rules of this schema are modelled. The key stripping and messages follow zod 3's defaults; the zod library is not part of this model.
- Dict order: Python dict iteration follows insertion order, which a Dafny map does not record. Iterating a dict is modelled by `ValidateProducts.KeysInSomeOrder`, a fixed but unspecified order, so `ValidateProducts.Elements` and `ValidateProducts.Execute` are ghost.
- Python `str()` of values that are not strings, as used in f-strings: the navigation summary takes it as the `render` input, known only to return a string unchanged.
- Text.PyLower: lowers ASCII letters and the Kelvin sign only. That is exact for every comparison against the four ASCII member names, but not a full Unicode `str.lower()`.
- Prompts: `prompts.py` defines only `INITIAL_USER_PROMPT` and `FINAL_USER_PROMPT`. The imports of `AGENT_ROUTER_PROMPT` (router_agent.py:2) and `LOCATION_PROMPT` (navigation_agent.py:2) therefore raise `ImportError` when the modules load, and neither module can run as written. RouterAgent.DetermineAgent and Navigation.Locations assume a template is supplied: the formatted router prompt is an input that may raise, and the location template is not modelled.
- Error text: `determine_agent` returns `str(e)` (router_agent.py:65), Python's own message, e.g. `'str' object has no attribute 'get'`. The model carries fixed labels such as `Json.NoGetError` in its place, which name the exception but not the type that raised it.
- Aliasing: `GlobalStore.get` returns the stored object itself, and callers mutate it in place (graph.py:85-87 appends to the stored history before calling `set`). The model treats stored values as immutable JSON, so a mutation is visible only through a later `set`.
- Logging: the `print` in the router's exception handler and `console.error` in `handleError` are not modelled; the handler's `logged` flag records only when logging would happen.
- The product search tool: it is an input answering products or an exception. The tool passes two arguments to a one-parameter search function, which would raise; this is the search raising.
- The language model, the WebSocket server, the comparison, product-information and fallback agents, and everything after the navigation summary in `navigation_agent`: these are network and streaming code.
- Carousel styling: the `translateX` percentage and the grid class names are presentation, computed in floating point.
- Infrastructure: the deployment stack is not part of this model.

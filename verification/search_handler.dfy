/**
  The search function's request handler (`handler` in
  backend/lambda/searchFn/src/index.ts): tenant-header check, access-token
  check, then routing on `METHOD resource` to retrieval (`GET /search`) or
  batch ingestion (`POST /search`), every failure mapped to an error envelope.
  The access token, the JSON parser, the search index, the clock and the
  random seed are all inputs.
 */
module SearchHandler {
  import opened Wrappers
  import opened Json
  import opened Text
  import opened Errors
  import opened ProductSchema
  import opened ImageIngest
  import opened Embedding

  // ---------------------------------------------------------------------------
  // Requests, services and responses
  // ---------------------------------------------------------------------------

  /** The parts of an API Gateway proxy event the handler reads. */
  datatype Request = Request(
    httpMethod: string,
    resource: string,
    headers: map<string, string>,
    query: map<string, string>,
    body: Option<string>)

  /** `getAccessToken()`: it throws, or yields a token that may be null or empty. */
  datatype TokenReply = TokenError | Token(token: Option<string>)

  /** What the index answers to a search: a failure, or the response body. */
  datatype SearchReply = SearchFailed | SearchOk(body: Json)

  /**
    Everything outside the function: the token provider, `JSON.parse`, the
    index (search by tenant, size and seed; write a document), the image and
    embedding services, the clock reading of each batch item's pipeline (item
    i reads `clock(i)`), and the random seed of this call.
   */
  datatype Services = Services(
    token: TokenReply,
    parseJson: string -> Option<Json>,
    search: (string, int, int) -> SearchReply,
    index: Object -> bool,
    images: ImageServices,
    embed: EmbedService,
    clock: nat -> string,
    seed: int)

  /** One slot of a batch response: `{success: true}` or `{success: false, error}`. */
  datatype ItemResult = Indexed | Invalid(issues: seq<Issue>)

  /** The response body before serialisation; `Undefined` is a body the handler never assigned. */
  datatype Body =
    | Undefined
    | Hits(items: seq<Object>)
    | Results(results: seq<ItemResult>)
    | Error(error: ErrorBody)

  datatype Response = Response(statusCode: int, headers: map<string, string>, body: Body)

  const MissingCompanyMessage := "Missing or invalid company-id header"
  const TokenMessage := "Failed to obtain Google access token"
  const InvalidSizeMessage := "Invalid size parameter"
  const MissingBodyMessage := "Missing request body"
  const InvalidJsonMessage := "Invalid JSON in request body"
  const UploadFailedMessage := "Failed to upload one or more images"
  const EmbeddingFailedMessage := "Failed to get embedding"
  const IndexFailedMessage := "Failed to index document"

  const DefaultSize := 4

  // ---------------------------------------------------------------------------
  // Header and token checks
  // ---------------------------------------------------------------------------

  /** The tenant header is present and not blank after `trim()`. */
  predicate ValidCompanyId(headers: map<string, string>) {
    "company-id" in headers && !JsBlank(headers["company-id"])
  }

  /** The access token is truthy: present and non-empty. */
  predicate TokenUsable(t: TokenReply) {
    t.Token? && t.token.Some? && t.token.value != ""
  }

  function CorsHeaders(req: Request): (h: map<string, string>)
    ensures "Access-Control-Allow-Origin" in h && "Access-Control-Allow-Methods" in h
    ensures h["Access-Control-Allow-Origin"] ==
              if "origin" in req.headers && req.headers["origin"] != "" then req.headers["origin"] else "*"
    ensures h["Access-Control-Allow-Methods"] == "OPTIONS, GET, POST"
  {
    map[
      "Content-Type" := "application/json",
      "Access-Control-Allow-Origin" :=
        (if "origin" in req.headers && req.headers["origin"] != "" then req.headers["origin"] else "*"),
      "Access-Control-Allow-Methods" := "OPTIONS, GET, POST",
      "Access-Control-Allow-Headers" := "Content-Type"]
  }

  function Fail<T>(statusCode: int, message: string): Result<T, Thrown> {
    Failure(Server(NewServerError(statusCode, message, None)))
  }

  // ---------------------------------------------------------------------------
  // GET /search
  // ---------------------------------------------------------------------------

  /** The longest prefix of decimal digits. */
  function DigitPrefix(s: string): (r: string)
    ensures r <= s && AllDigits(r)
    ensures |r| < |s| ==> !IsDigit(s[|r|])
  {
    if s != [] && IsDigit(s[0]) then [s[0]] + DigitPrefix(s[1..]) else []
  }

  /** The sign and digits of `parseInt` once white space has been skipped. */
  function ParseSigned(t: string): (r: Option<int>)
    ensures t == [] || !(IsDigit(t[0]) || t[0] == '-' || t[0] == '+') ==> r.None?
    ensures t != [] && IsDigit(t[0]) ==> r.Some? && r.value >= 0
    ensures r.Some? && r.value < 0 ==> t[0] == '-'
  {
    var negative := t != [] && t[0] == '-';
    var unsigned := if t != [] && (t[0] == '-' || t[0] == '+') then t[1..] else t;
    var digits := DigitPrefix(unsigned);
    if digits == [] then None
    else if negative then Some(-(DigitsValue(digits) as int))
    else Some(DigitsValue(digits))
  }

  /**
    `parseInt(s, 10)` over integers: skip leading white space, take an optional
    sign and the longest run of digits; None (NaN) when there are no digits.
   */
  function ParseInt(s: string): (r: Option<int>)
    ensures JsTrimStart(s) == [] ==> r.None?
    ensures r.Some? && r.value < 0 ==> JsTrimStart(s)[0] == '-'
  {
    ParseSigned(JsTrimStart(s))
  }

  /** The `size` the search uses, or the 400 the handler throws. */
  function SearchSize(query: map<string, string>): (r: Result<int, Thrown>)
    ensures "size" !in query ==> r == Success(DefaultSize)
    ensures "size" in query ==>
              (r.Success? <==> ParseInt(query["size"]).Some? && ParseInt(query["size"]).value > 0)
    ensures "size" in query && r.Success? ==> r.value == ParseInt(query["size"]).value
    ensures r.Failure? ==> r == Fail(400, InvalidSizeMessage)
    ensures r.Success? ==> r.value > 0
  {
    if "size" !in query then Success(DefaultSize)
    else
      match ParseInt(query["size"])
      case None => Fail(400, InvalidSizeMessage)
      case Some(n) => if n <= 0 then Fail(400, InvalidSizeMessage) else Success(n)
  }

  /** The index keys `"0"`, `"1"`, ... below n. */
  function IndexKeys(n: nat): set<string> {
    set i | 0 <= i < n :: NatToString(i)
  }

  /** `vals` as an object under its index keys. */
  function IndexFields(vals: seq<Json>): Object
    decreases |vals|
  {
    if vals == [] then map[]
    else IndexFields(vals[..|vals| - 1])[NatToString(|vals| - 1) := vals[|vals| - 1]]
  }

  /** One more element adds exactly its own index key. */
  lemma IndexKeysNext(n: nat)
    ensures IndexKeys(n + 1) == IndexKeys(n) + {NatToString(n)}
  {
    forall k | k in IndexKeys(n + 1)
      ensures k in IndexKeys(n) + {NatToString(n)}
    {
      var i :| 0 <= i < n + 1 && k == NatToString(i);
      if i < n {
        assert k in IndexKeys(n);
      }
    }
    forall k | k in IndexKeys(n)
      ensures k in IndexKeys(n + 1)
    {
      var i :| 0 <= i < n && k == NatToString(i);
    }
  }

  /** The keys of `IndexFields(vals)` are the index keys below `|vals|`. */
  lemma {:induction false} IndexFieldsKeys(vals: seq<Json>)
    ensures IndexFields(vals).Keys == IndexKeys(|vals|)
    decreases |vals|
  {
    if vals != [] {
      IndexFieldsKeys(vals[..|vals| - 1]);
      IndexKeysNext(|vals| - 1);
    }
  }

  /** Element i sits under key `NatToString(i)`. */
  lemma {:induction false} IndexFieldsValues(vals: seq<Json>)
    ensures forall i :: 0 <= i < |vals| ==> NatToString(i) in IndexFields(vals) && IndexFields(vals)[NatToString(i)] == vals[i]
    decreases |vals|
  {
    if vals != [] {
      var n := |vals| - 1;
      var front := vals[..n];
      IndexFieldsValues(front);
      IndexKeysDistinct(n);
      forall i | 0 <= i < n
        ensures NatToString(i) in IndexFields(vals) && IndexFields(vals)[NatToString(i)] == vals[i]
      {
        assert front[i] == vals[i];
      }
    }
  }

  /** No index below n renders like n. */
  lemma IndexKeysDistinct(n: nat)
    ensures forall i :: 0 <= i < n ==> NatToString(i) != NatToString(n)
  {
    forall i | 0 <= i < n
      ensures NatToString(i) != NatToString(n)
    {
      if NatToString(i) == NatToString(n) {
        NatToStringInjective(i, n);
      }
    }
  }

  /**
    The own enumerable properties that `{...v}` copies: an object's fields,
    a string's characters and an array's elements under their index keys,
    and nothing from a number, a boolean or null.
   */
  function Spread(v: Json): (r: Object)
    ensures v.JObj? ==> r == v.fields
    ensures v.JStr? ==> r.Keys == IndexKeys(|v.s|)
    ensures v.JStr? ==> forall i :: 0 <= i < |v.s| ==> r[NatToString(i)] == JStr([v.s[i]])
    ensures v.JArr? ==> r.Keys == IndexKeys(|v.items|)
    ensures v.JArr? ==> forall i :: 0 <= i < |v.items| ==> r[NatToString(i)] == v.items[i]
    ensures v.JNum? || v.JBool? || v.JNull? ==> r == map[]
  {
    match v
    case JObj(fields) => fields
    case JStr(s) =>
      var chars := seq(|s|, i requires 0 <= i < |s| => JStr([s[i]]));
      IndexFieldsKeys(chars);
      IndexFieldsValues(chars);
      IndexFields(chars)
    case JArr(items) =>
      IndexFieldsKeys(items);
      IndexFieldsValues(items);
      IndexFields(items)
    case _ => map[]
  }

  /** Index keys are digits only, so removing `embedding` from a spread string or array removes nothing. */
  lemma IndexedSpreadKeepsAll(v: Json)
    requires v.JStr? || v.JArr?
    ensures Spread(v) - {"embedding"} == Spread(v)
  {
    var n := if v.JStr? then |v.s| else |v.items|;
    forall i | 0 <= i < n
      ensures NatToString(i) != "embedding"
    {
      assert IsDigit(NatToString(i)[0]);
    }
  }

  /**
    One hit mapped to what the caller sees: the spread of a truthy `_source`
    without its `embedding` key, or `{}` when `_source` is missing or falsy.
    A null hit makes the property access throw.
   */
  function StripHit(hit: Json): (r: Result<Object, Thrown>)
    ensures r.Failure? <==> hit.JNull?
    ensures r.Success? ==> "embedding" !in r.value
    ensures hit.JObj? && "_source" in hit.fields && hit.fields["_source"].JObj? ==>
              r == Success(hit.fields["_source"].fields - {"embedding"})
    ensures hit.JObj? && "_source" in hit.fields && JsTruthy(hit.fields["_source"]) ==>
              r == Success(Spread(hit.fields["_source"]) - {"embedding"})
    ensures !hit.JNull? && !(hit.JObj? && "_source" in hit.fields && JsTruthy(hit.fields["_source"])) ==>
              r == Success(map[])
  {
    match hit
    case JNull => Failure(Other("cannot read _source of null"))
    case JObj(fields) =>
      if "_source" in fields && JsTruthy(fields["_source"]) then
        Success(Spread(fields["_source"]) - {"embedding"})
      else Success(map[])
    case _ => Success(map[])
  }

  /** A string `_source` is spread into its characters: `"ab"` gives `{"0": "a", "1": "b"}`. */
  lemma StringSourceSpread()
    ensures StripHit(JObj(map["_source" := JStr("ab")])) == Success(map["0" := JStr("a"), "1" := JStr("b")])
  {
    var r := Spread(JStr("ab"));
    assert NatToString(0) == "0" && NatToString(1) == "1";
    assert IndexKeys(0) == {};
    IndexKeysNext(0);
    IndexKeysNext(1);
    assert r.Keys == {"0", "1"};
    assert r == map["0" := JStr("a"), "1" := JStr("b")];
    IndexedSpreadKeepsAll(JStr("ab"));
  }

  /** `response.body?.hits?.hits?.map(...) || []`. */
  function HitsOf(body: Json): (r: Result<seq<Object>, Thrown>)
    ensures var hits := Member(Member(Some(body), "hits"), "hits");
      && (hits.None? || hits.value.JNull? ==> r == Success([]))
      && (hits.Some? && hits.value.JArr? ==>
            (r.Success? <==> forall i :: 0 <= i < |hits.value.items| ==> !hits.value.items[i].JNull?)
            && (r.Success? ==>
                  && |r.value| == |hits.value.items|
                  && forall i :: 0 <= i < |r.value| ==> Success(r.value[i]) == StripHit(hits.value.items[i])))
  {
    var hits := Member(Member(Some(body), "hits"), "hits");
    if hits.None? || hits.value.JNull? then Success([])
    else if hits.value.JArr? then
      var items := hits.value.items;
      var stripped := seq(|items|, i requires 0 <= i < |items| => StripHit(items[i]));
      assert forall i :: 0 <= i < |items| ==> stripped[i] == StripHit(items[i]);
      All(stripped)
    else Failure(Other("hits.hits.map is not a function"))
  }

  /** The `GET /search` branch. */
  function Retrieve(query: map<string, string>, companyId: string, svc: Services): (r: Result<Body, Thrown>)
    ensures SearchSize(query).Failure? ==> r == Fail(400, InvalidSizeMessage)
    ensures SearchSize(query).Success? ==>
              var reply := svc.search(companyId, SearchSize(query).value, svc.seed);
              && (reply.SearchFailed? ==> r.Failure? && r.error.Other?)
              && (reply.SearchOk? ==>
                    match HitsOf(reply.body)
                    case Success(items) => r == Success(Hits(items))
                    case Failure(t) => r == Failure(t))
  {
    var size :- SearchSize(query);
    match svc.search(companyId, size, svc.seed)
    case SearchFailed => Failure(Other("search failed"))
    case SearchOk(body) =>
      var items :- HitsOf(body);
      Success(Hits(items))
  }

  // ---------------------------------------------------------------------------
  // POST /search
  // ---------------------------------------------------------------------------

  const AllowedFields: set<string> :=
    {"sku", "companyId", "embedding", "name", "description", "category", "brand", "images",
     "price", "currency", "createdAt", "updatedAt", "inStock", "reviews", "location"}

  /** The allow-list copy: only allowed keys whose value is defined. */
  function Project(doc: Object): (r: Object)
    ensures r.Keys == doc.Keys * AllowedFields
    ensures forall k :: k in r ==> r[k] == doc[k]
  {
    map k | k in doc && k in AllowedFields :: doc[k]
  }

  /** Projecting twice is projecting once. */
  lemma ProjectIdempotent(doc: Object)
    ensures Project(Project(doc)) == Project(doc)
  {
  }

  /** The image strings of a validated document (all strings by the schema). */
  function ImageStrings(items: seq<Json>): (r: seq<string>)
    requires forall i :: 0 <= i < |items| ==> items[i].JStr?
    ensures |r| == |items| && forall i :: 0 <= i < |items| ==> r[i] == items[i].s
  {
    if items == [] then [] else [items[0].s] + ImageStrings(items[1..])
  }

  function Urls(urls: seq<string>): (r: seq<Json>)
    ensures |r| == |urls| && forall i :: 0 <= i < |urls| ==> r[i] == JStr(urls[i])
  {
    if urls == [] then [] else [JStr(urls[0])] + Urls(urls[1..])
  }

  /** An item after validation: rejected with its issues, or the document ready to be indexed. */
  datatype Prepared = Rejected(issues: seq<Issue>) | Ready(doc: Object)

  /** The validated document with the tenant injected. */
  function Tenanted(validated: Object, companyId: string): Object {
    validated["companyId" := JStr(companyId)]
  }

  /** The images step: upload a non-empty list and replace it by the stored URLs. */
  function WithStoredImages(doc: Object, companyId: string, svc: Services): (r: Result<Object, Thrown>)
    requires "images" in doc ==> ValidImages(doc["images"])
    requires "sku" in doc && doc["sku"].JStr?
    ensures r.Success? ==> r.value.Keys == doc.Keys
    ensures r.Success? ==> forall k :: k in doc && k != "images" ==> r.value[k] == doc[k]
    ensures ("images" !in doc || doc["images"].items == []) ==> r == Success(doc)
    ensures r.Failure? ==> r == Fail(500, UploadFailedMessage)
  {
    if "images" in doc && doc["images"].JArr? && |doc["images"].items| > 0 then
      assert ValidImages(doc["images"]);
      var images := ImageStrings(doc["images"].items);
      match UploadImages(images, companyId, doc["sku"].s, svc.images)
      case Success(urls) => Success(doc["images" := JArr(Urls(urls))])
      case Failure(_) => Fail(500, UploadFailedMessage)
    else Success(doc)
  }

  /** The fetched vector and the one timestamp, written as `embedding`, `createdAt` and `updatedAt`. */
  function Stamped(doc: Object, values: seq<Json>, now: string): (r: Object)
    ensures r.Keys == doc.Keys + {"embedding", "createdAt", "updatedAt"}
    ensures r["embedding"] == JArr(values) && r["createdAt"] == JStr(now) && r["updatedAt"] == JStr(now)
    ensures forall k :: k in doc && k != "embedding" && k != "createdAt" && k != "updatedAt" ==> r[k] == doc[k]
  {
    doc["embedding" := JArr(values)]["createdAt" := JStr(now)]["updatedAt" := JStr(now)]
  }

  /**
    Everything after validation for one item: tenant, stored images,
    embedding of the tenanted document without images, timestamps, projection.
   */
  function Enrich(validated: Object, companyId: string, token: string, now: string, svc: Services): (r: Result<Object, Thrown>)
    requires ValidProduct(JObj(validated))
    ensures r.Failure? ==> r == Fail(500, UploadFailedMessage) || r == Fail(500, EmbeddingFailedMessage)
    ensures r.Success? ==>
              && r.value.Keys == (validated.Keys + {"companyId", "embedding", "createdAt", "updatedAt"}) * AllowedFields
              && r.value["companyId"] == JStr(companyId)
              && r.value["createdAt"] == JStr(now) && r.value["updatedAt"] == JStr(now)
              && FetchEmbedding(Tenanted(validated, companyId) - {"images"}, token, svc.embed).Success?
              && r.value["embedding"] == JArr(FetchEmbedding(Tenanted(validated, companyId) - {"images"}, token, svc.embed).value)
    ensures r.Success? ==>
              forall k :: (&& k in validated && k in AllowedFields && k != "images" && k != "companyId"
                           && k != "embedding" && k != "createdAt" && k != "updatedAt") ==> r.value[k] == validated[k]
    ensures r.Success? && "images" in validated && validated["images"].items == [] ==>
              "images" in r.value && r.value["images"] == validated["images"]
    ensures "images" in validated && validated["images"].items != [] ==>
              var uploaded := UploadImages(ImageStrings(validated["images"].items), companyId, validated["sku"].s, svc.images);
              && (uploaded.Failure? ==> r == Fail(500, UploadFailedMessage))
              && (r.Success? ==> uploaded.Success? && "images" in r.value && r.value["images"] == JArr(Urls(uploaded.value)))
  {
    var doc := Tenanted(validated, companyId);
    TenantedImages(validated, companyId, svc);
    var withImages :- WithStoredImages(doc, companyId, svc);
    SameOutside(withImages, doc, "images");
    Embedded(validated, companyId, withImages, token, now, svc)
  }

  /** Two objects with the same keys that agree outside `key` are equal once `key` is removed. */
  lemma SameOutside(a: Object, b: Object, key: string)
    requires a.Keys == b.Keys
    requires forall k :: k in b && k != key ==> a[k] == b[k]
    ensures a - {key} == b - {key}
  {
  }

  /** The embedding step on the document holding its stored images: fetch the vector, stamp, project. */
  function Embedded(validated: Object, companyId: string, withImages: Object, token: string, now: string, svc: Services)
    : (r: Result<Object, Thrown>)
    requires withImages.Keys == validated.Keys + {"companyId"}
    requires withImages["companyId"] == JStr(companyId)
    requires forall k :: k in validated && k != "images" && k != "companyId" ==> withImages[k] == validated[k]
    ensures r.Failure? <==> FetchEmbedding(withImages - {"images"}, token, svc.embed).Failure?
    ensures r.Failure? ==> r == Fail(500, EmbeddingFailedMessage)
    ensures r.Success? ==>
              && r.value.Keys == (validated.Keys + {"companyId", "embedding", "createdAt", "updatedAt"}) * AllowedFields
              && r.value["companyId"] == JStr(companyId)
              && r.value["createdAt"] == JStr(now) && r.value["updatedAt"] == JStr(now)
              && r.value["embedding"] == JArr(FetchEmbedding(withImages - {"images"}, token, svc.embed).value)
              && ("images" in withImages ==> "images" in r.value && r.value["images"] == withImages["images"])
    ensures r.Success? ==>
              forall k :: (&& k in validated && k in AllowedFields && k != "images" && k != "companyId"
                           && k != "embedding" && k != "createdAt" && k != "updatedAt") ==> r.value[k] == validated[k]
  {
    match FetchEmbedding(withImages - {"images"}, token, svc.embed)
    case Failure(_) => Fail(500, EmbeddingFailedMessage)
    case Success(values) =>
      EnrichedShape(validated, companyId, withImages, values, now);
      Success(Project(Stamped(withImages, values, now)))
  }

  /**
    The images step on the tenanted document: a non-empty image list is
    uploaded, an upload failure is fatal, and a success stores the URLs.
   */
  lemma TenantedImages(validated: Object, companyId: string, svc: Services)
    requires ValidProduct(JObj(validated))
    ensures "images" in Tenanted(validated, companyId) ==> ValidImages(Tenanted(validated, companyId)["images"])
    ensures "sku" in Tenanted(validated, companyId) && Tenanted(validated, companyId)["sku"].JStr?
    ensures "images" in validated && validated["images"].items != [] ==>
              var uploaded := UploadImages(ImageStrings(validated["images"].items), companyId, validated["sku"].s, svc.images);
              var stored := WithStoredImages(Tenanted(validated, companyId), companyId, svc);
              && (uploaded.Failure? ==> stored == Fail(500, UploadFailedMessage))
              && (stored.Success? ==> uploaded.Success? && stored.value["images"] == JArr(Urls(uploaded.value)))
  {
  }

  /** Keys and values of the stamped, projected document in terms of the validated one. */
  lemma EnrichedShape(validated: Object, companyId: string, withImages: Object, values: seq<Json>, now: string)
    requires withImages.Keys == validated.Keys + {"companyId"}
    requires withImages["companyId"] == JStr(companyId)
    requires forall k :: k in validated && k != "images" && k != "companyId" ==> withImages[k] == validated[k]
    ensures var r := Project(Stamped(withImages, values, now));
              "images" in withImages ==> "images" in r && r["images"] == withImages["images"]
    ensures var r := Project(Stamped(withImages, values, now));
              && r.Keys == (validated.Keys + {"companyId", "embedding", "createdAt", "updatedAt"}) * AllowedFields
              && r["companyId"] == JStr(companyId)
              && r["createdAt"] == JStr(now) && r["updatedAt"] == JStr(now)
              && r["embedding"] == JArr(values)
              && forall k :: (&& k in validated && k in AllowedFields && k != "images" && k != "companyId"
                              && k != "embedding" && k != "createdAt" && k != "updatedAt") ==> r[k] == validated[k]
  {
    var s := Stamped(withImages, values, now);
    assert "companyId" in AllowedFields && "embedding" in AllowedFields;
    assert "createdAt" in AllowedFields && "updatedAt" in AllowedFields && "images" in AllowedFields;
  }

  /** Validation, then the rest of the pipeline for a valid item. */
  function PrepareItem(item: Json, companyId: string, token: string, now: string, svc: Services): (r: Result<Prepared, Thrown>)
    ensures Validate(item).Failure? <==> r.Success? && r.value.Rejected?
    ensures Validate(item).Failure? ==> r == Success(Rejected(Validate(item).error))
    ensures Validate(item).Success? ==>
              match Enrich(Validate(item).value, companyId, token, now, svc)
              case Success(doc) => r == Success(Ready(doc))
              case Failure(t) => r == Failure(t)
    ensures r.Failure? ==> r == Fail(500, UploadFailedMessage) || r == Fail(500, EmbeddingFailedMessage)
  {
    match Validate(item)
    case Failure(issues) => Success(Rejected(issues))
    case Success(validated) =>
      var doc :- Enrich(validated, companyId, token, now, svc);
      Success(Ready(doc))
  }

  /** One batch slot: a schema failure stays in its slot, an upstream failure is thrown. */
  function IngestItem(item: Json, companyId: string, token: string, now: string, svc: Services): (r: Result<ItemResult, Thrown>)
    ensures Validate(item).Failure? ==> r == Success(Invalid(Validate(item).error))
    ensures r == Success(Indexed) <==>
              PrepareItem(item, companyId, token, now, svc).Success? && PrepareItem(item, companyId, token, now, svc).value.Ready?
              && svc.index(PrepareItem(item, companyId, token, now, svc).value.doc)
    ensures r.Failure? ==> r == Fail(500, UploadFailedMessage) || r == Fail(500, EmbeddingFailedMessage)
                           || r == Fail(500, IndexFailedMessage)
  {
    var prepared :- PrepareItem(item, companyId, token, now, svc);
    match prepared
    case Rejected(issues) => Success(Invalid(issues))
    case Ready(doc) => if svc.index(doc) then Success(Indexed) else Fail(500, IndexFailedMessage)
  }

  /** A JSON array is a batch; any other value is a batch of one. */
  function BatchOf(data: Json): (items: seq<Json>)
    ensures data.JArr? ==> items == data.items
    ensures !data.JArr? ==> items == [data]
  {
    if data.JArr? then data.items else [data]
  }

  /** The outcome of every item, in input order (all of them run). */
  function Outcomes(items: seq<Json>, companyId: string, token: string, svc: Services): (r: seq<Result<ItemResult, Thrown>>)
    ensures |r| == |items|
    ensures forall i :: 0 <= i < |items| ==> r[i] == IngestItem(items[i], companyId, token, svc.clock(i), svc)
  {
    seq(|items|, i requires 0 <= i < |items| => IngestItem(items[i], companyId, token, svc.clock(i), svc))
  }

  /** The `POST /search` branch: `Promise.all` over the items, so one upstream failure fails the request. */
  function Ingest(body: Option<string>, companyId: string, token: string, svc: Services): (r: Result<Body, Thrown>)
    ensures body.None? || body.value == "" ==> r == Fail(400, MissingBodyMessage)
    ensures body.Some? && body.value != "" && svc.parseJson(body.value).None? ==> r == Fail(400, InvalidJsonMessage)
    ensures body.Some? && body.value != "" && svc.parseJson(body.value).Some? ==>
              var items := BatchOf(svc.parseJson(body.value).value);
              && (r.Success? <==> forall i :: 0 <= i < |items| ==> IngestItem(items[i], companyId, token, svc.clock(i), svc).Success?)
              && (r.Success? ==>
                    && r.value.Results? && |r.value.results| == |items|
                    && forall i :: 0 <= i < |items| ==>
                         Success(r.value.results[i]) == IngestItem(items[i], companyId, token, svc.clock(i), svc))
              && (r.Failure? ==>
                    exists i :: 0 <= i < |items| && IngestItem(items[i], companyId, token, svc.clock(i), svc) == Failure(r.error)
                                && forall j :: 0 <= j < i ==> IngestItem(items[j], companyId, token, svc.clock(j), svc).Success?)
  {
    if body.None? || body.value == "" then Fail(400, MissingBodyMessage)
    else
      match svc.parseJson(body.value)
      case None => Fail(400, InvalidJsonMessage)
      case Some(data) =>
        var results :- All(Outcomes(BatchOf(data), companyId, token, svc));
        Success(Results(results))
  }

  // ---------------------------------------------------------------------------
  // The handler
  // ---------------------------------------------------------------------------

  /** `${httpMethod} ${resource}`. */
  function Endpoint(req: Request): string {
    req.httpMethod + " " + req.resource
  }

  /** Everything inside the handler's `try`: the body it assigns, or what it throws. */
  function Dispatch(req: Request, svc: Services): (r: Result<Body, Thrown>)
    // the tenant header is checked first, then the access token
    ensures !ValidCompanyId(req.headers) ==> r == Fail(400, MissingCompanyMessage)
    ensures ValidCompanyId(req.headers) && !TokenUsable(svc.token) ==> r.Failure? && HandleError(r.error).statusCode == 500
    ensures r.Success? ==> ValidCompanyId(req.headers) && TokenUsable(svc.token)
    // then the route: only `GET /search` and `POST /search` do any work
    ensures ValidCompanyId(req.headers) && TokenUsable(svc.token) ==>
              && (Endpoint(req) == "GET /search" ==> r == Retrieve(req.query, req.headers["company-id"], svc))
              && (Endpoint(req) == "POST /search" ==>
                    r == Ingest(req.body, req.headers["company-id"], svc.token.token.value, svc))
              && (Endpoint(req) != "GET /search" && Endpoint(req) != "POST /search" ==> r == Success(Undefined))
  {
    if !ValidCompanyId(req.headers) then Fail(400, MissingCompanyMessage)
    else if svc.token.TokenError? then Failure(Other("access token request failed"))
    else if !TokenUsable(svc.token) then Fail(500, TokenMessage)
    else
      var companyId := req.headers["company-id"];
      var token := svc.token.token.value;
      var endpoint := Endpoint(req);
      if endpoint == "GET /search" then Retrieve(req.query, companyId, svc)
      else if endpoint == "POST /search" then Ingest(req.body, companyId, token, svc)
      else Success(Undefined)
  }

  /** `handler(event)`: status 200 with the assigned body, or the mapped error envelope. */
  function Handle(req: Request, svc: Services): (r: Response)
    ensures r.headers == CorsHeaders(req)
    ensures Dispatch(req, svc).Success? ==> r.statusCode == 200 && r.body == Dispatch(req, svc).value
    ensures Dispatch(req, svc).Failure? ==>
              var h := HandleError(Dispatch(req, svc).error);
              r.statusCode == h.statusCode && r.body == Error(h.body)
  {
    match Dispatch(req, svc)
    case Success(body) => Response(200, CorsHeaders(req), body)
    case Failure(t) =>
      var h := HandleError(t);
      Response(h.statusCode, CorsHeaders(req), Error(h.body))
  }
}

/**
  Properties of the search function's handler as a whole: the order of the
  checks, the size parameter, hit stripping, batch shape and order, the
  fail-fast batch, and the shape of every document sent to the index.
 */
module SearchProperties {
  import opened Wrappers
  import opened Json
  import opened Text
  import opened Errors
  import opened ProductSchema
  import opened ImageIngest
  import opened Embedding
  import opened SearchHandler

  // ---------------------------------------------------------------------------
  // Checks before routing
  // ---------------------------------------------------------------------------

  /** A missing or blank tenant header is a 400 on every route, before anything else is tried. */
  lemma MissingCompanyIdRejected(req: Request, svc: Services)
    requires !ValidCompanyId(req.headers)
    ensures Handle(req, svc).statusCode == 400
    ensures Handle(req, svc).body == Error(ErrorBody(MissingCompanyMessage, None))
  {
  }

  /** With a valid header, an unusable access token is a 500 on every route, GET included. */
  lemma UnusableTokenRejected(req: Request, svc: Services)
    requires ValidCompanyId(req.headers) && !TokenUsable(svc.token)
    ensures Handle(req, svc).statusCode == 500
    ensures svc.token.Token? ==> Handle(req, svc).body == Error(ErrorBody(TokenMessage, None))
    ensures svc.token.TokenError? ==> Handle(req, svc).body == Error(ErrorBody(InternalServerError, None))
  {
  }

  /** A route other than `GET /search` and `POST /search` answers 200 with no body. */
  lemma UnknownRouteUndefined(req: Request, svc: Services)
    requires ValidCompanyId(req.headers) && TokenUsable(svc.token)
    requires Endpoint(req) != "GET /search" && Endpoint(req) != "POST /search"
    ensures Handle(req, svc) == Response(200, CorsHeaders(req), Undefined)
  {
  }

  // ---------------------------------------------------------------------------
  // GET /search
  // ---------------------------------------------------------------------------

  /** The digit prefix of a rendered number followed by a non-digit is the rendering. */
  lemma DigitPrefixOfRendered(d: string, tail: string)
    requires AllDigits(d)
    requires tail == [] || !IsDigit(tail[0])
    ensures DigitPrefix(d + tail) == d
    decreases |d|
  {
    if d != [] {
      assert (d + tail)[1..] == d[1..] + tail;
      DigitPrefixOfRendered(d[1..], tail);
    }
  }

  /** Without a sign, the value is that of the leading digits. */
  lemma ParseSignedBare(u: string)
    requires DigitPrefix(u) != []
    ensures ParseSigned(u) == Some(DigitsValue(DigitPrefix(u)))
  {
  }

  /** After a minus sign, the value is minus that of the digits that follow. */
  lemma ParseSignedMinus(u: string)
    requires DigitPrefix(u) != []
    ensures ParseSigned(['-'] + u) == Some(-(DigitsValue(DigitPrefix(u)) as int))
  {
    assert (['-'] + u)[1..] == u;
  }

  /** The unsigned case: digits then a non-digit tail. */
  lemma ParseSignedUnsigned(n: nat, tail: string)
    requires tail == [] || !IsDigit(tail[0])
    ensures ParseSigned(NatToString(n) + tail) == Some(n as int)
  {
    DigitPrefixOfRendered(NatToString(n), tail);
    ParseSignedBare(NatToString(n) + tail);
    NatToStringRoundTrip(n);
  }

  /** The negative case: a minus, digits, then a non-digit tail. */
  lemma ParseSignedNegative(n: nat, tail: string)
    requires tail == [] || !IsDigit(tail[0])
    ensures ParseSigned("-" + NatToString(n) + tail) == Some(-(n as int))
  {
    var d := NatToString(n);
    assert "-" + d + tail == ['-'] + (d + tail);
    DigitPrefixOfRendered(d, tail);
    ParseSignedMinus(d + tail);
    NatToStringRoundTrip(n);
  }

  /**
    `parseInt` reads back a rendered integer: leading white space and an
    optional sign are skipped, and anything after the digits is ignored.
   */
  lemma ParseIntReadsRendered(space: string, n: nat, tail: string, negative: bool)
    requires JsBlank(space)
    requires tail == [] || !IsDigit(tail[0])
    ensures ParseInt(space + (if negative then "-" else "") + NatToString(n) + tail)
            == Some(if negative then -(n as int) else n as int)
  {
    var d := NatToString(n);
    if negative {
      var rest := "-" + d + tail;
      assert space + "-" + d + tail == space + rest;
      ParseIntAfterBlank(space, rest);
      ParseSignedNegative(n, tail);
    } else {
      var rest := d + tail;
      assert "" + d == d;
      assert space + "" + d + tail == space + rest;
      assert rest[0] == d[0];
      ParseIntAfterBlank(space, rest);
      ParseSignedUnsigned(n, tail);
    }
  }

  /** Leading white space does not change what `parseInt` reads. */
  lemma ParseIntAfterBlank(space: string, rest: string)
    requires JsBlank(space)
    requires rest == [] || !IsJsSpace(rest[0])
    ensures ParseInt(space + rest) == ParseSigned(rest)
  {
    TrimStartSkipsBlank(space, rest);
  }

  /** Trimming skips exactly the blank prefix when what follows does not start with white space. */
  lemma {:induction false} TrimStartSkipsBlank(space: string, rest: string)
    requires JsBlank(space)
    requires rest == [] || !IsJsSpace(rest[0])
    ensures JsTrimStart(space + rest) == rest
    decreases |space|
  {
    if space == [] {
      assert space + rest == rest;
    } else {
      assert (space + rest)[1..] == space[1..] + rest;
      TrimStartSkipsBlank(space[1..], rest);
    }
  }

  /** A string whose first non-blank character is neither a sign nor a digit parses to NaN. */
  lemma ParseIntNoDigits(s: string)
    requires var t := JsTrimStart(s); t == [] || (!IsDigit(t[0]) && t[0] != '-' && t[0] != '+')
    ensures ParseInt(s) == None
  {
  }

  /** Without `size` the index is asked for 4 hits; `size=0` is a 400. */
  lemma SizeDefaultsAndZeroRejected(query: map<string, string>)
    ensures "size" !in query ==> SearchSize(query) == Success(4)
    ensures "size" in query && query["size"] == "0" ==> SearchSize(query) == Fail(400, InvalidSizeMessage)
  {
    if "size" in query && query["size"] == "0" {
      ParseIntReadsRendered("", 0, "", false);
      assert "" + "" + NatToString(0) + "" == "0";
    }
  }

  /**
    A GET answers with one entry per hit, in hit order: the hit's `_source`
    without `embedding`, all other keys kept; the index is queried with the
    tenant, the parsed size and this call's seed.
   */
  lemma GetReturnsStrippedHits(req: Request, svc: Services, body: Json, i: nat)
    requires ValidCompanyId(req.headers) && TokenUsable(svc.token)
    requires Endpoint(req) == "GET /search"
    requires SearchSize(req.query).Success?
    requires svc.search(req.headers["company-id"], SearchSize(req.query).value, svc.seed) == SearchOk(body)
    requires HitsOf(body).Success?
    ensures Handle(req, svc) == Response(200, CorsHeaders(req), Hits(HitsOf(body).value))
    ensures var hits := Member(Member(Some(body), "hits"), "hits");
      hits.Some? && hits.value.JArr? && i < |hits.value.items| ==>
        var hit := hits.value.items[i];
        && i < |HitsOf(body).value|
        && (hit.JObj? && "_source" in hit.fields && hit.fields["_source"].JObj? ==>
              var src := hit.fields["_source"].fields;
              var item := HitsOf(body).value[i];
              "embedding" !in item && forall k :: k in src && k != "embedding" ==> k in item && item[k] == src[k])
        && (hit.JObj? && "_source" in hit.fields && JsTruthy(hit.fields["_source"]) ==>
              HitsOf(body).value[i] == Spread(hit.fields["_source"]) - {"embedding"})
        && (!(hit.JObj? && "_source" in hit.fields && JsTruthy(hit.fields["_source"])) ==> HitsOf(body).value[i] == map[])
  {
  }

  /** No `hits` at all (or null) gives an empty list. */
  lemma AbsentHitsEmpty(body: Json)
    requires Member(Member(Some(body), "hits"), "hits").None?
    ensures HitsOf(body) == Success([])
  {
  }

  // ---------------------------------------------------------------------------
  // POST /search
  // ---------------------------------------------------------------------------

  /** A POST request whose body parses to `data`. */
  predicate PostWith(req: Request, svc: Services, data: Json) {
    && ValidCompanyId(req.headers) && TokenUsable(svc.token)
    && Endpoint(req) == "POST /search"
    && req.body.Some? && req.body.value != ""
    && svc.parseJson(req.body.value) == Some(data)
  }

  /** A well-formed POST is handed to the ingestion branch with the header's tenant and the fetched token. */
  lemma PostDispatchesToIngest(req: Request, svc: Services)
    requires ValidCompanyId(req.headers) && TokenUsable(svc.token)
    requires Endpoint(req) == "POST /search"
    ensures Dispatch(req, svc) == Ingest(req.body, req.headers["company-id"], svc.token.token.value, svc)
  {
  }

  /** A POST without a body, or with an empty one, is a 400. */
  lemma MissingBodyRejected(req: Request, svc: Services)
    requires ValidCompanyId(req.headers) && TokenUsable(svc.token)
    requires Endpoint(req) == "POST /search"
    requires req.body.None? || req.body.value == ""
    ensures Handle(req, svc).statusCode == 400
    ensures Handle(req, svc).body == Error(ErrorBody(MissingBodyMessage, None))
  {
  }

  /** A body the parser refuses is a 400. */
  lemma InvalidJsonRejected(req: Request, svc: Services)
    requires ValidCompanyId(req.headers) && TokenUsable(svc.token)
    requires Endpoint(req) == "POST /search"
    requires req.body.Some? && req.body.value != "" && svc.parseJson(req.body.value).None?
    ensures Handle(req, svc).statusCode == 400
    ensures Handle(req, svc).body == Error(ErrorBody(InvalidJsonMessage, None))
  {
  }

  /** A slot that does not fail holds the item's schema issues exactly when the item is invalid. */
  lemma ItemSlot(item: Json, companyId: string, token: string, now: string, svc: Services)
    requires IngestItem(item, companyId, token, now, svc).Success?
    ensures IngestItem(item, companyId, token, now, svc).value.Invalid? <==> !ValidProduct(item)
    ensures IngestItem(item, companyId, token, now, svc).value.Invalid? ==>
              IngestItem(item, companyId, token, now, svc).value.issues == Validate(item).error
  {
    if ValidProduct(item) {
      assert PrepareItem(item, companyId, token, now, svc).Success?;
      assert PrepareItem(item, companyId, token, now, svc).value.Ready?;
    }
  }

  /** A well-formed POST answers with what the ingestion branch computes. */
  lemma PostAnswersIngest(req: Request, svc: Services, data: Json)
    requires PostWith(req, svc, data)
    ensures var r := Ingest(req.body, req.headers["company-id"], svc.token.token.value, svc);
      && (r.Success? ==> Handle(req, svc) == Response(200, CorsHeaders(req), r.value))
      && (r.Failure? ==> Handle(req, svc).statusCode == HandleError(r.error).statusCode
                         && Handle(req, svc).body == Error(HandleError(r.error).body))
  {
    PostDispatchesToIngest(req, svc);
  }

  /**
    When no item fails upstream, the response holds exactly one result per
    item in input order; an item the schema refuses carries its issues in
    its own slot and does not disturb the others.
   */
  lemma BatchResultsInOrder(req: Request, svc: Services, data: Json)
    requires PostWith(req, svc, data)
    requires var items := BatchOf(data);
      forall i :: 0 <= i < |items| ==> IngestItem(items[i], req.headers["company-id"], svc.token.token.value, svc.clock(i), svc).Success?
    ensures Handle(req, svc).statusCode == 200
    ensures Handle(req, svc).body.Results?
    ensures var items := BatchOf(data); var results := Handle(req, svc).body.results;
      && |results| == |items|
      && forall i :: 0 <= i < |items| ==>
           && (results[i].Invalid? <==> !ValidProduct(items[i]))
           && (results[i].Invalid? ==> results[i].issues == Validate(items[i]).error)
  {
    var items := BatchOf(data);
    var companyId, token := req.headers["company-id"], svc.token.token.value;
    var r := Ingest(req.body, companyId, token, svc);
    assert r.Success?;
    PostAnswersIngest(req, svc, data);
    forall i | 0 <= i < |items|
      ensures r.value.results[i].Invalid? <==> !ValidProduct(items[i])
      ensures r.value.results[i].Invalid? ==> r.value.results[i].issues == Validate(items[i]).error
    {
      assert Success(r.value.results[i]) == IngestItem(items[i], companyId, token, svc.clock(i), svc);
      ItemSlot(items[i], companyId, token, svc.clock(i), svc);
    }
  }

  /** A single object is a batch of one. */
  lemma SingleObjectIsBatchOfOne(req: Request, svc: Services, data: Json)
    requires PostWith(req, svc, data) && data.JObj?
    requires IngestItem(data, req.headers["company-id"], svc.token.token.value, svc.clock(0), svc).Success?
    ensures Handle(req, svc).body.Results? && |Handle(req, svc).body.results| == 1
  {
    assert BatchOf(data) == [data];
    BatchResultsInOrder(req, svc, data);
  }

  /**
    Fail-fast: one item whose image, embedding or index step fails turns the
    whole response into a 500 carrying one of those steps' messages and no results.
   */
  lemma UpstreamFailureFailsBatch(req: Request, svc: Services, data: Json, i: nat)
    requires PostWith(req, svc, data)
    requires i < |BatchOf(data)|
    requires IngestItem(BatchOf(data)[i], req.headers["company-id"], svc.token.token.value, svc.clock(i), svc).Failure?
    ensures Handle(req, svc).statusCode == 500
    ensures Handle(req, svc).body.Error?
    ensures Handle(req, svc).body.error.error.None?
    ensures Handle(req, svc).body.error.message in {UploadFailedMessage, EmbeddingFailedMessage, IndexFailedMessage}
  {
    var items := BatchOf(data);
    var companyId, token := req.headers["company-id"], svc.token.token.value;
    var r := Ingest(req.body, companyId, token, svc);
    assert r.Failure?;
    PostAnswersIngest(req, svc, data);
    var j :| 0 <= j < |items| && IngestItem(items[j], companyId, token, svc.clock(j), svc) == Failure(r.error);
    UpstreamFailureHandled(IngestItem(items[j], companyId, token, svc.clock(j), svc));
  }

  /** An item's upstream failure is handled as a 500 with its own message and no detail. */
  lemma UpstreamFailureHandled(r: Result<ItemResult, Thrown>)
    requires r == Fail(500, UploadFailedMessage) || r == Fail(500, EmbeddingFailedMessage)
             || r == Fail(500, IndexFailedMessage)
    ensures HandleError(r.error).statusCode == 500
    ensures HandleError(r.error).body.error.None?
    ensures HandleError(r.error).body.message in {UploadFailedMessage, EmbeddingFailedMessage, IndexFailedMessage}
  {
  }

  // ---------------------------------------------------------------------------
  // The document sent to the index
  // ---------------------------------------------------------------------------

  /** None of the keys the handler adds is a key of the product schema. */
  lemma AddedKeysOutsideSchema()
    ensures "companyId" !in ShapeKeys && "embedding" !in ShapeKeys
    ensures "createdAt" !in ShapeKeys && "updatedAt" !in ShapeKeys
  {
  }

  /**
    The indexed document holds only allowed fields; it carries the header's
    tenant, equal `createdAt` and `updatedAt`, and as `embedding` the vector
    fetched for the tenanted document without its images; every other
    validated field except `images` is copied unchanged.
   */
  lemma IndexedDocumentShape(item: Json, companyId: string, token: string, now: string, svc: Services)
    requires PrepareItem(item, companyId, token, now, svc).Success?
    requires PrepareItem(item, companyId, token, now, svc).value.Ready?
    ensures Validate(item).Success?
    ensures PrepareItem(item, companyId, token, now, svc).value.doc.Keys <= AllowedFields
    ensures PrepareItem(item, companyId, token, now, svc).value.doc.Keys
              == Validate(item).value.Keys + {"companyId", "embedding", "createdAt", "updatedAt"}
    ensures var doc := PrepareItem(item, companyId, token, now, svc).value.doc;
              doc["companyId"] == JStr(companyId) && doc["createdAt"] == doc["updatedAt"] == JStr(now)
    ensures var content := Tenanted(Validate(item).value, companyId) - {"images"};
              && FetchEmbedding(content, token, svc.embed).Success?
              && PrepareItem(item, companyId, token, now, svc).value.doc["embedding"]
                   == JArr(FetchEmbedding(content, token, svc.embed).value)
    ensures var doc := PrepareItem(item, companyId, token, now, svc).value.doc;
            var validated := Validate(item).value;
              forall k :: k in validated && k != "images" && k != "companyId" ==> doc[k] == validated[k]
  {
    var validated := Validate(item).value;
    var doc := PrepareItem(item, companyId, token, now, svc).value.doc;
    assert Enrich(validated, companyId, token, now, svc) == Success(doc);
    EnrichedDocumentShape(validated, companyId, token, now, svc);
  }

  /** The enriched document of a validated item, its keys no longer cut by the projection. */
  lemma EnrichedDocumentShape(validated: Object, companyId: string, token: string, now: string, svc: Services)
    requires ValidProduct(JObj(validated)) && validated.Keys <= ShapeKeys
    requires Enrich(validated, companyId, token, now, svc).Success?
    ensures var doc := Enrich(validated, companyId, token, now, svc).value;
      && doc.Keys <= AllowedFields
      && doc.Keys == validated.Keys + {"companyId", "embedding", "createdAt", "updatedAt"}
      && forall k :: k in validated && k != "images" && k != "companyId" ==> doc[k] == validated[k]
  {
    AddedKeysOutsideSchema();
    assert ShapeKeys <= AllowedFields;
    assert {"companyId", "embedding", "createdAt", "updatedAt"} <= AllowedFields;
  }

  /** An empty image list skips the upload and is stored as `[]`. */
  lemma EmptyImagesKept(item: Json, companyId: string, token: string, now: string, svc: Services)
    requires Validate(item).Success?
    requires "images" in item.fields && item.fields["images"] == JArr([])
    requires PrepareItem(item, companyId, token, now, svc).Success?
    ensures PrepareItem(item, companyId, token, now, svc).value.Ready?
    ensures PrepareItem(item, companyId, token, now, svc).value.doc["images"] == JArr([])
  {
    var validated := Validate(item).value;
    assert validated["images"] == item.fields["images"];
  }

  /**
    A data URI with an empty payload passes the schema but fails the upload
    with a 400, which the item step rewraps as a 500 for the whole request.
   */
  lemma EmptyDataUriPassesSchemaButFailsUpload(svc: ImageServices)
    ensures ValidImageString("data:image/png;base64,")
    ensures Classify("data:image/png;base64,") == DataUri("png", "")
    ensures Resolve(Classify("data:image/png;base64,"), svc) == Failure(Server(NewServerError(400, InvalidBase64Message, None)))
  {
    assert AllLetters("png");
    assert DataUriLead + "png" + Base64Marker + "" == "data:image/png;base64,";
    ClassifyDataUriRoundTrip("png", "");
  }

  /** Any item whose image upload fails is fatal for the request, whatever its siblings do. */
  lemma UploadFailureIsFatal(item: Json, companyId: string, token: string, now: string, svc: Services)
    requires Validate(item).Success?
    requires "images" in item.fields && item.fields["images"].JArr? && |item.fields["images"].items| > 0
    requires UploadImages(ImageStrings(item.fields["images"].items), companyId, item.fields["sku"].s, svc.images).Failure?
    ensures IngestItem(item, companyId, token, now, svc) == Fail(500, UploadFailedMessage)
  {
    var validated := Validate(item).value;
    assert validated["images"] == item.fields["images"] && validated["sku"] == item.fields["sku"];
  }
}

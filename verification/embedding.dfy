/**
  The embedding client of the search function (`fetchEmbedding` in
  backend/lambda/searchFn/src/index.ts): one call to the embedding service,
  then a walk down `predictions[0].embeddings.values` of its reply.
 */
module Embedding {
  import opened Wrappers
  import opened Json
  import opened Errors

  /**
    What the embedding service does with one request: the call itself fails,
    it answers with a non-2xx status and a text body, or it answers 2xx with a
    body that is JSON (Some) or not (None).
   */
  datatype EmbedReply = NetworkError | NotOk(text: string) | OkBody(json: Option<Json>)

  /** The service as seen from the function: request content and bearer token in, reply out. */
  type EmbedService = (Object, string) -> EmbedReply

  /**
    Optional-chaining property access `v?.key` on a JSON value. Only objects
    have the keys looked up here (`predictions`, `embeddings`, `values`);
    arrays, strings, numbers and booleans yield undefined or, for an array's
    `values`, a method, which the final array check rejects just the same.
   */
  function Member(v: Option<Json>, key: string): (r: Option<Json>)
    ensures r.Some? ==> v.Some? && v.value.JObj? && key in v.value.fields && r.value == v.value.fields[key]
  {
    if v.Some? && v.value.JObj? && key in v.value.fields then Some(v.value.fields[key]) else None
  }

  /**
    `v?.[0]`: the first element of an array or the member "0" of an object;
    a string's first character has no `embeddings`, so it is treated as absent.
   */
  function FirstElement(v: Option<Json>): (r: Option<Json>)
    ensures r.Some? ==> v.Some? && (v.value.JArr? || v.value.JObj?)
  {
    if v.None? then None
    else match v.value
      case JArr(items) => if |items| > 0 then Some(items[0]) else None
      case JObj(fields) => if "0" in fields then Some(fields["0"]) else None
      case _ => None
  }

  /** `embeddingJson?.predictions?.[0]?.embeddings?.values`. */
  function ValuesOf(body: Json): Option<Json> {
    Member(Member(FirstElement(Member(Some(body), "predictions")), "embeddings"), "values")
  }

  const FetchFailedPrefix := "Failed to fetch embedding: "
  const InvalidResponseMessage := "Invalid embedding response"

  /** `fetchEmbedding(doc, accessToken)`: the embedding vector, or what the function throws. */
  function FetchEmbedding(doc: Object, token: string, embed: EmbedService): (r: Result<seq<Json>, Thrown>)
    ensures r.Success? <==>
              embed(doc, token).OkBody? && embed(doc, token).json.Some?
              && ValuesOf(embed(doc, token).json.value).Some? && ValuesOf(embed(doc, token).json.value).value.JArr?
    ensures r.Success? ==> JArr(r.value) == ValuesOf(embed(doc, token).json.value).value
    ensures embed(doc, token).NotOk? ==>
              r == Failure(Server(NewServerError(500, FetchFailedPrefix + embed(doc, token).text, None)))
    ensures embed(doc, token).OkBody? && embed(doc, token).json.Some? && r.Failure? ==>
              r == Failure(Server(NewServerError(500, InvalidResponseMessage, None)))
  {
    match embed(doc, token)
    case NetworkError => Failure(Other("embedding request failed"))
    case NotOk(text) => Failure(Server(NewServerError(500, FetchFailedPrefix + text, None)))
    case OkBody(None) => Failure(Other("embedding reply is not JSON"))
    case OkBody(Some(body)) =>
      match ValuesOf(body)
      case Some(JArr(values)) => Success(values)
      case _ => Failure(Server(NewServerError(500, InvalidResponseMessage, None)))
  }

  /** The well-formed reply shape, `{predictions: [{embeddings: {values: [...]}}]}`, yields its vector. */
  lemma WellFormedReplyAccepted(doc: Object, token: string, embed: EmbedService, values: seq<Json>)
    requires embed(doc, token) ==
      OkBody(Some(JObj(map["predictions" := JArr([JObj(map["embeddings" := JObj(map["values" := JArr(values)])])])])))
    ensures FetchEmbedding(doc, token, embed) == Success(values)
  {
  }
}

/**
  Image ingestion of the search function (`uploadImages` in
  backend/lambda/searchFn/src/index.ts): each reference is classified into a
  tagged variant, resolved to a content type and file extension, and stored
  under a key built from the tenant, the SKU and its position. Fetching the
  bytes and writing the object are oracles; the bytes themselves are opaque.
 */
module ImageIngest {
  import opened Wrappers
  import opened Text
  import opened Errors
  import opened ProductSchema

  /** The three shapes an image reference can take, selected first-match. */
  datatype ImageRef =
    | RemoteUrl(url: string)
    | DataUri(subtype: string, payload: string)
    | RawBase64(payload: string)

  /** What fetching a remote image yields: its `content-type` header, if any. */
  datatype FetchReply = Fetched(contentType: Option<string>) | FetchFailed

  /**
    The storage side of uploading: the HTTP fetch, the object write (which
    succeeds or not for a key and content type), and the bucket coordinates.
   */
  datatype ImageServices = ImageServices(
    fetch: string -> FetchReply,
    put: (string, string) -> bool,
    bucket: string,
    region: string)

  /** A resolved image: where its bytes go and how they are labelled. */
  datatype Resolved = Resolved(contentType: string, extension: string)

  function Classify(img: string): (r: ImageRef)
    ensures r.RemoteUrl? <==> HasUrlScheme(img)
    ensures r.DataUri? <==> !HasUrlScheme(img) && MatchesDataUri(img)
    ensures r.RawBase64? <==> !HasUrlScheme(img) && !MatchesDataUri(img)
    ensures r.RemoteUrl? ==> r.url == img
    ensures r.DataUri? ==> img == DataUriLead + r.subtype + Base64Marker + r.payload
                           && |r.subtype| > 0 && AllLetters(r.subtype)
    ensures r.RawBase64? ==> r.payload == img
  {
    DataUriSubtypeMatches(img);
    if HasUrlScheme(img) then RemoteUrl(img)
    else
      match DataUriSubtype(img)
      case Some(subtype) =>
        var start := |DataUriLead| + |subtype| + |Base64Marker|;
        assert img == img[..start] + img[start..];
        assert img[..start] == DataUriLead + subtype + Base64Marker;
        DataUri(subtype, img[start..])
      case None => RawBase64(img)
  }

  /**
    `contentType.split('/')[1]`: the text between the first '/' and the next
    one (or the end); None when there is no '/'.
   */
  function SecondSegment(s: string): (r: Option<string>)
    ensures r.Some? ==> forall i :: 0 <= i < |r.value| ==> r.value[i] != '/'
  {
    if s == [] then None
    else if s[0] == '/' then Some(UpToSlash(s[1..]))
    else SecondSegment(s[1..])
  }

  function UpToSlash(s: string): (r: string)
    ensures r <= s
    ensures forall i :: 0 <= i < |r| ==> r[i] != '/'
    ensures |r| < |s| ==> s[|r|] == '/'
  {
    if s == [] || s[0] == '/' then [] else [s[0]] + UpToSlash(s[1..])
  }

  const DefaultRemoteType := "application/octet-stream"

  /** Content type and extension for a fetched image: header (if non-empty) and its subtype, with defaults. */
  function RemoteResolution(header: Option<string>): (r: Resolved)
    ensures header.Some? && header.value != "" ==> r.contentType == header.value
    ensures header.None? || header.value == "" ==> r.contentType == DefaultRemoteType
    ensures r.extension != ""
    ensures SecondSegment(r.contentType).Some? && SecondSegment(r.contentType).value != "" ==>
              r.extension == SecondSegment(r.contentType).value
  {
    var contentType := if header.Some? && header.value != "" then header.value else DefaultRemoteType;
    var segment := SecondSegment(contentType);
    var extension := if segment.Some? && segment.value != "" then segment.value else "jpg";
    Resolved(contentType, extension)
  }

  const InvalidBase64Message := "Invalid base64 image string"

  /**
    The full data-URI pattern `^data:image/([a-zA-Z]+);base64,(.+)$` also
    needs a non-empty payload free of line terminators.
   */
  predicate PayloadMatches(payload: string) {
    |payload| > 0 && forall i :: 0 <= i < |payload| ==> !IsLineTerminator(payload[i])
  }

  /** Resolving one classified reference, or the value it throws. */
  function Resolve(ref: ImageRef, svc: ImageServices): (r: Result<Resolved, Thrown>)
    ensures ref.DataUri? ==>
              (r.Success? <==> PayloadMatches(ref.payload))
              && (r.Success? ==> r.value == Resolved("image/" + ref.subtype, ref.subtype))
              && (r.Failure? ==> r.error == Server(NewServerError(400, InvalidBase64Message, None)))
    ensures ref.RawBase64? ==> r == Success(Resolved("image/jpeg", "jpg"))
    ensures ref.RemoteUrl? ==> (r.Success? <==> svc.fetch(ref.url).Fetched?)
    ensures ref.RemoteUrl? && svc.fetch(ref.url).Fetched? ==>
              r == Success(RemoteResolution(svc.fetch(ref.url).contentType))
  {
    match ref
    case RemoteUrl(url) =>
      (match svc.fetch(url)
       case Fetched(header) => Success(RemoteResolution(header))
       case FetchFailed => Failure(Other("image fetch failed")))
    case DataUri(subtype, payload) =>
      if PayloadMatches(payload) then Success(Resolved("image/" + subtype, subtype))
      else Failure(Server(NewServerError(400, InvalidBase64Message, None)))
    case RawBase64(_) => Success(Resolved("image/jpeg", "jpg"))
  }

  /** `${companyId}/${sku}_${idx}.${extension}`. */
  function ObjectKey(companyId: string, sku: string, idx: nat, extension: string): (r: string)
    ensures companyId + "/" <= r
    ensures |r| > |extension| && r[|r| - |extension| - 1..] == "." + extension
  {
    companyId + "/" + sku + "_" + NatToString(idx) + "." + extension
  }

  /** `https://${bucket}.s3.${region}.amazonaws.com/${key}`. */
  function ObjectUrl(bucket: string, region: string, key: string): (r: string)
    ensures "https://" + bucket + ".s3." <= r
    ensures |r| >= |key| && r[|r| - |key|..] == key
  {
    "https://" + bucket + ".s3." + region + ".amazonaws.com/" + key
  }

  /** One image at position idx: classify, resolve, store, and return its public URL. */
  function UploadOne(img: string, idx: nat, companyId: string, sku: string, svc: ImageServices): (r: Result<string, Thrown>)
    ensures r.Success? <==>
              Resolve(Classify(img), svc).Success?
              && svc.put(ObjectKey(companyId, sku, idx, Resolve(Classify(img), svc).value.extension),
                         Resolve(Classify(img), svc).value.contentType)
    ensures r.Success? ==>
              r.value == ObjectUrl(svc.bucket, svc.region,
                                   ObjectKey(companyId, sku, idx, Resolve(Classify(img), svc).value.extension))
  {
    var resolved :- Resolve(Classify(img), svc);
    var key := ObjectKey(companyId, sku, idx, resolved.extension);
    if svc.put(key, resolved.contentType) then Success(ObjectUrl(svc.bucket, svc.region, key))
    else Failure(Other("image store failed"))
  }

  /**
    `uploadImages`: all images are processed; the URLs come back in input
    order, or the whole call fails if any single image fails.
   */
  function UploadImages(images: seq<string>, companyId: string, sku: string, svc: ImageServices): (r: Result<seq<string>, Thrown>)
    ensures r.Success? <==> forall i :: 0 <= i < |images| ==> UploadOne(images[i], i, companyId, sku, svc).Success?
    ensures r.Success? ==> |r.value| == |images|
    ensures r.Success? ==> forall i :: 0 <= i < |images| ==>
              r.value[i] == UploadOne(images[i], i, companyId, sku, svc).value
  {
    var outcomes := seq(|images|, i requires 0 <= i < |images| => UploadOne(images[i], i, companyId, sku, svc));
    assert forall i :: 0 <= i < |images| ==> outcomes[i] == UploadOne(images[i], i, companyId, sku, svc);
    All(outcomes)
  }

  /**
    Every stored URL of a successful upload names the tenant, the SKU and the
    image's own position: element i is `https://{bucket}.s3.{region}.amazonaws.com/{companyId}/{sku}_{i}.{ext}`.
   */
  lemma UploadedUrlShape(images: seq<string>, companyId: string, sku: string, svc: ImageServices, i: nat)
    requires UploadImages(images, companyId, sku, svc).Success?
    requires i < |images|
    ensures exists ext: string ::
              && ext != ""
              && UploadImages(images, companyId, sku, svc).value[i]
                   == "https://" + svc.bucket + ".s3." + svc.region + ".amazonaws.com/"
                      + companyId + "/" + sku + "_" + NatToString(i) + "." + ext
  {
    var res := Resolve(Classify(images[i]), svc).value;
    assert UploadOne(images[i], i, companyId, sku, svc).Success?;
    ResolvedExtensionNonEmpty(images[i], svc);
    ObjectUrlSpelled(svc.bucket, svc.region, companyId, sku, i, res.extension);
  }

  /**
    A remote image is stored under the extension its response header names
    and is written with that header's type, `application/octet-stream` when
    the header is missing.
   */
  lemma RemoteUploadUsesHeader(img: string, idx: nat, companyId: string, sku: string, svc: ImageServices)
    requires Classify(img).RemoteUrl?
    requires UploadOne(img, idx, companyId, sku, svc).Success?
    ensures svc.fetch(img).Fetched?
    ensures var res := RemoteResolution(svc.fetch(img).contentType);
      && svc.put(ObjectKey(companyId, sku, idx, res.extension), res.contentType)
      && UploadOne(img, idx, companyId, sku, svc).value == ObjectUrl(svc.bucket, svc.region, ObjectKey(companyId, sku, idx, res.extension))
  {
  }

  /** Every successful resolution has a non-empty extension. */
  lemma ResolvedExtensionNonEmpty(img: string, svc: ImageServices)
    requires Resolve(Classify(img), svc).Success?
    ensures Resolve(Classify(img), svc).value.extension != ""
  {
    match Classify(img)
    case RemoteUrl(_) =>
    case DataUri(_, _) =>
    case RawBase64(_) =>
  }

  /** The object URL of a key, written out as one concatenation. */
  lemma ObjectUrlSpelled(bucket: string, region: string, companyId: string, sku: string, idx: nat, ext: string)
    ensures ObjectUrl(bucket, region, ObjectKey(companyId, sku, idx, ext))
              == "https://" + bucket + ".s3." + region + ".amazonaws.com/"
                 + companyId + "/" + sku + "_" + NatToString(idx) + "." + ext
  {
  }

  /** In `d + "." + e` with d all digits, the first '.' sits right after d. */
  lemma FirstDotAfterDigits(d: string, e: string)
    requires AllDigits(d)
    ensures (d + "." + e)[|d|] == '.'
    ensures forall k :: 0 <= k < |d| ==> (d + "." + e)[k] != '.'
  {
  }

  /** A run of digits followed by '.' is recovered unambiguously from the combined string. */
  lemma DigitsBeforeDotUnique(d1: string, e1: string, d2: string, e2: string)
    requires AllDigits(d1) && AllDigits(d2)
    requires d1 + "." + e1 == d2 + "." + e2
    ensures d1 == d2
  {
    var s := d1 + "." + e1;
    FirstDotAfterDigits(d1, e1);
    FirstDotAfterDigits(d2, e2);
    assert |d1| == |d2|;
    assert d1 == s[..|d1|];
    assert d2 == s[..|d2|];
  }

  /** Images at different positions are stored under different keys, whatever their extensions. */
  lemma ObjectKeysDistinct(companyId: string, sku: string, i: nat, j: nat, e1: string, e2: string)
    requires i != j
    ensures ObjectKey(companyId, sku, i, e1) != ObjectKey(companyId, sku, j, e2)
  {
    var p := companyId + "/" + sku + "_";
    var a := NatToString(i) + "." + e1;
    var b := NatToString(j) + "." + e2;
    if ObjectKey(companyId, sku, i, e1) == ObjectKey(companyId, sku, j, e2) {
      assert ObjectKey(companyId, sku, i, e1) == p + a;
      assert ObjectKey(companyId, sku, j, e2) == p + b;
      assert a == (p + a)[|p|..] == (p + b)[|p|..] == b;
      var di, dj := NatToString(i), NatToString(j);
      DigitsBeforeDotUnique(di, e1, dj, e2);
      NatToStringInjective(i, j);
    }
  }

  /**
    Classification inverts the data-URI layout: a reference built from a
    letter subtype and any payload is read back as exactly that pair.
   */
  lemma ClassifyDataUriRoundTrip(subtype: string, payload: string)
    requires |subtype| > 0 && AllLetters(subtype)
    ensures Classify(DataUriLead + subtype + Base64Marker + payload) == DataUri(subtype, payload)
  {
    var s := DataUriLead + subtype + Base64Marker + payload;
    var k, n := |DataUriLead|, |subtype|;
    assert s[..k] == DataUriLead;
    assert s[k .. k + n] == subtype;
    assert s[k + n ..] == Base64Marker + payload;
    assert DataUriAt(s, n);
    assert s[0] == 'd';
    DataUriSubtypeMatches(s);
    var r := Classify(s);
    assert DataUriAt(s, |r.subtype|) by {
      assert s[k .. k + |r.subtype|] == r.subtype;
      assert s[k + |r.subtype| ..] == Base64Marker + r.payload;
    }
    assert r.subtype == subtype;
    assert r.payload == s[k + n + |Base64Marker| ..] == payload;
  }

  /** Only http(s) URLs are fetched; data URIs and bare base64 never touch the network. */
  lemma OnlyRemoteFetches(img: string, svc: ImageServices)
    requires !HasUrlScheme(img)
    ensures Resolve(Classify(img), svc).Success? || Classify(img).DataUri?
  {
  }
}

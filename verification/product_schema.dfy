/**
  The product schema of the search function (backend/lambda/searchFn/src/utils.ts):
  the image-string refinement and the `productSchema` object rules, as a
  validator that collects zod-style issues in shape order, together with an
  independent declarative definition of a valid product.
 */
module ProductSchema {
  import opened Wrappers
  import opened Json
  import opened Text

  // ---------------------------------------------------------------------------
  // Image strings
  // ---------------------------------------------------------------------------

  /** Characters the regular-expression `.` refuses to match. */
  predicate IsLineTerminator(c: char) {
    c == '\n' || c == '\r' || c as int == 0x2028 || c as int == 0x2029
  }

  /** `/^https?:\/\//`: the image is a remote reference. */
  predicate HasUrlScheme(s: string) {
    "http://" <= s || "https://" <= s
  }

  /** `/^https?:\/\/.+/`: a scheme followed by at least one character other than a line terminator. */
  predicate MatchesUrl(s: string) {
    ("http://" <= s && |s| > 7 && !IsLineTerminator(s[7]))
    || ("https://" <= s && |s| > 8 && !IsLineTerminator(s[8]))
  }

  const DataUriLead := "data:image/"
  const Base64Marker := ";base64,"

  predicate AllLetters(s: string) {
    forall i :: 0 <= i < |s| ==> IsAsciiLetter(s[i])
  }

  /** `/^data:image\/[a-zA-Z]+;base64,/` matched with a subtype of exactly n letters. */
  predicate DataUriAt(s: string, n: nat) {
    && 1 <= n
    && |DataUriLead| + n <= |s|
    && DataUriLead <= s
    && AllLetters(s[|DataUriLead| .. |DataUriLead| + n])
    && Base64Marker <= s[|DataUriLead| + n ..]
  }

  /** `/^data:image\/[a-zA-Z]+;base64,/`, as the regular expression states it. */
  predicate MatchesDataUri(s: string) {
    exists n: nat :: n <= |s| && DataUriAt(s, n)
  }

  /** The number of ASCII letters at the start of `s`. */
  function LetterRun(s: string): (n: nat)
    ensures n <= |s| && AllLetters(s[..n])
    ensures n < |s| ==> !IsAsciiLetter(s[n])
  {
    if s != [] && IsAsciiLetter(s[0]) then
      var n := 1 + LetterRun(s[1..]);
      assert s[..n] == [s[0]] + s[1..][..n - 1];
      n
    else 0
  }

  /**
    The subtype captured by the data-URI pattern, found by scanning the
    letter run after `data:image/`; None when the pattern does not match.
   */
  function DataUriSubtype(s: string): (r: Option<string>)
  {
    if DataUriLead <= s then
      var n := LetterRun(s[|DataUriLead|..]);
      if 1 <= n && Base64Marker <= s[|DataUriLead| + n ..] then Some(s[|DataUriLead| .. |DataUriLead| + n])
      else None
    else None
  }

  /**
    The scan agrees with the regular expression, and the capture is unique:
    the subtype is the only letter run that the pattern can match.
   */
  lemma DataUriSubtypeMatches(s: string)
    ensures DataUriSubtype(s).Some? <==> MatchesDataUri(s)
    ensures forall n: nat :: DataUriAt(s, n) ==> DataUriSubtype(s) == Some(s[|DataUriLead| .. |DataUriLead| + n])
  {
    var k := |DataUriLead|;
    if DataUriSubtype(s).Some? {
      var run := LetterRun(s[k..]);
      assert s[k..][..run] == s[k .. k + run];
      assert DataUriAt(s, run);
    }
    forall n: nat | DataUriAt(s, n)
      ensures DataUriSubtype(s) == Some(s[k .. k + n])
    {
      var run := LetterRun(s[k..]);
      assert s[k + n] == ';' by {
        assert s[k + n ..][0] == Base64Marker[0];
      }
      assert run == n;
    }
  }

  predicate IsBase64Char(c: char) {
    IsAsciiLetter(c) || IsDigit(c) || c == '+' || c == '/' || c == '='
  }

  /** `/^[A-Za-z0-9+/=]+$/`: one or more base64 alphabet characters and nothing else. */
  predicate MatchesBase64(s: string) {
    |s| > 0 && forall i :: 0 <= i < |s| ==> IsBase64Char(s[i])
  }

  /** The `imageStringSchema` refinement. */
  predicate ValidImageString(s: string) {
    MatchesUrl(s) || MatchesDataUri(s) || MatchesBase64(s)
  }

  /** The empty string matches none of the three shapes. */
  lemma EmptyImageStringInvalid()
    ensures !ValidImageString("")
  {
  }

  const ImageMessage := "Must be a valid URL or base64 image string"

  // ---------------------------------------------------------------------------
  // Issues
  // ---------------------------------------------------------------------------

  datatype PathSegment = Key(name: string) | Index(index: nat)

  /** One zod issue: where it is and what it says. */
  datatype Issue = Issue(path: seq<PathSegment>, message: string)

  /** zod's name for the runtime type of a value. */
  function TypeName(j: Json): string {
    match j
    case JNull => "null"
    case JBool(_) => "boolean"
    case JNum(_) => "number"
    case JStr(_) => "string"
    case JArr(_) => "array"
    case JObj(_) => "object"
  }

  /** zod's `invalid_type` issue: "Required" for a missing value, else expected versus received. */
  function TypeIssue(path: seq<PathSegment>, expected: string, v: Option<Json>): Issue {
    match v
    case None => Issue(path, "Required")
    case Some(j) => Issue(path, "Expected " + expected + ", received " + TypeName(j))
  }

  const SkuMessage := "SKU is required"
  const NameMessage := "Product name is required"
  const CurrencyMessage := "Currency is required"
  const PositiveMessage := "Price must be a positive number"
  const NegativeMessage := "Price cannot be negative"
  const UserMessage := "Review user is required"
  const IntegerMessage := "Rating must be an integer"
  const RatingMinMessage := "Rating must be at least 1"
  const RatingMaxMessage := "Rating can be at most 5"

  predicate IsInteger(x: real) {
    x == x.Floor as real
  }

  // ---------------------------------------------------------------------------
  // The declarative rules
  // ---------------------------------------------------------------------------

  predicate NonEmptyString(o: Object, key: string) {
    key in o && o[key].JStr? && o[key].s != ""
  }

  predicate OptionalString(o: Object, key: string) {
    key in o ==> o[key].JStr?
  }

  predicate OptionalBool(o: Object, key: string) {
    key in o ==> o[key].JBool?
  }

  predicate ValidImages(j: Json) {
    j.JArr? && forall i :: 0 <= i < |j.items| ==> j.items[i].JStr? && ValidImageString(j.items[i].s)
  }

  predicate ValidRating(j: Json) {
    j.JNum? && IsInteger(j.n) && 1.0 <= j.n <= 5.0
  }

  predicate ValidReview(j: Json) {
    j.JObj? && NonEmptyString(j.fields, "user") && "rating" in j.fields && ValidRating(j.fields["rating"])
    && OptionalString(j.fields, "comment")
  }

  predicate ValidReviews(j: Json) {
    j.JArr? && forall i :: 0 <= i < |j.items| ==> ValidReview(j.items[i])
  }

  predicate ValidLocation(j: Json) {
    j.JObj? && OptionalString(j.fields, "aisle") && OptionalString(j.fields, "section")
    && OptionalString(j.fields, "shelf")
  }

  /** A product the schema accepts. */
  predicate ValidProduct(j: Json) {
    && j.JObj?
    && var o := j.fields;
    && NonEmptyString(o, "sku")
    && NonEmptyString(o, "name")
    && OptionalString(o, "description")
    && OptionalString(o, "category")
    && OptionalString(o, "brand")
    && ("images" in o ==> ValidImages(o["images"]))
    && "price" in o && o["price"].JNum? && o["price"].n > 0.0
    && NonEmptyString(o, "currency")
    && OptionalBool(o, "inStock")
    && ("reviews" in o ==> ValidReviews(o["reviews"]))
    && ("location" in o ==> ValidLocation(o["location"]))
  }

  // ---------------------------------------------------------------------------
  // Issue collection (`safeParse`)
  // ---------------------------------------------------------------------------

  function Lookup(o: Object, key: string): Option<Json> {
    if key in o then Some(o[key]) else None
  }

  /** `z.string().min(1, message)` at `path`. */
  function RequiredStringIssues(path: seq<PathSegment>, o: Object, key: string, message: string): (r: seq<Issue>)
    ensures r == [] <==> NonEmptyString(o, key)
    ensures |r| <= 1
  {
    var v := Lookup(o, key);
    if v.None? || !v.value.JStr? then [TypeIssue(path + [Key(key)], "string", v)]
    else if v.value.s == "" then [Issue(path + [Key(key)], message)]
    else []
  }

  /** `z.string().optional()` at `path`. */
  function OptionalStringIssues(path: seq<PathSegment>, o: Object, key: string): (r: seq<Issue>)
    ensures r == [] <==> OptionalString(o, key)
  {
    if key in o && !o[key].JStr? then [TypeIssue(path + [Key(key)], "string", Some(o[key]))] else []
  }

  function PriceIssues(o: Object): (r: seq<Issue>)
    ensures r == [] <==> ("price" in o && o["price"].JNum? && o["price"].n > 0.0)
  {
    var v := Lookup(o, "price");
    if v.None? || !v.value.JNum? then [TypeIssue([Key("price")], "number", v)]
    else
      var n := v.value.n;
      (if n > 0.0 then [] else [Issue([Key("price")], PositiveMessage)])
      + (if n >= 0.0 then [] else [Issue([Key("price")], NegativeMessage)])
  }

  function InStockIssues(o: Object): (r: seq<Issue>)
    ensures r == [] <==> OptionalBool(o, "inStock")
  {
    if "inStock" in o && !o["inStock"].JBool? then [TypeIssue([Key("inStock")], "boolean", Some(o["inStock"]))] else []
  }

  /** Issues of the image strings from position i on. */
  function ImageElementIssues(items: seq<Json>, i: nat): (r: seq<Issue>)
    requires i <= |items|
    ensures r == [] <==> forall k :: i <= k < |items| ==> items[k].JStr? && ValidImageString(items[k].s)
    decreases |items| - i
  {
    if i == |items| then []
    else
      var path := [Key("images"), Index(i)];
      var here :=
        if !items[i].JStr? then [TypeIssue(path, "string", Some(items[i]))]
        else if !ValidImageString(items[i].s) then [Issue(path, ImageMessage)]
        else [];
      here + ImageElementIssues(items, i + 1)
  }

  function ImagesIssues(o: Object): (r: seq<Issue>)
    ensures r == [] <==> ("images" in o ==> ValidImages(o["images"]))
  {
    if "images" !in o then []
    else if !o["images"].JArr? then [TypeIssue([Key("images")], "array", Some(o["images"]))]
    else ImageElementIssues(o["images"].items, 0)
  }

  function RatingIssues(path: seq<PathSegment>, r: Object): (issues: seq<Issue>)
    ensures issues == [] <==> ("rating" in r && ValidRating(r["rating"]))
  {
    var v := Lookup(r, "rating");
    var p := path + [Key("rating")];
    if v.None? || !v.value.JNum? then [TypeIssue(p, "number", v)]
    else
      var n := v.value.n;
      (if IsInteger(n) then [] else [Issue(p, IntegerMessage)])
      + (if n >= 1.0 then [] else [Issue(p, RatingMinMessage)])
      + (if n <= 5.0 then [] else [Issue(p, RatingMaxMessage)])
  }

  function ReviewIssues(i: nat, j: Json): (r: seq<Issue>)
    ensures r == [] <==> ValidReview(j)
  {
    var path := [Key("reviews"), Index(i)];
    if !j.JObj? then [TypeIssue(path, "object", Some(j))]
    else
      RequiredStringIssues(path, j.fields, "user", UserMessage)
      + RatingIssues(path, j.fields)
      + OptionalStringIssues(path, j.fields, "comment")
  }

  function ReviewElementIssues(items: seq<Json>, i: nat): (r: seq<Issue>)
    requires i <= |items|
    ensures r == [] <==> forall k :: i <= k < |items| ==> ValidReview(items[k])
    decreases |items| - i
  {
    if i == |items| then [] else ReviewIssues(i, items[i]) + ReviewElementIssues(items, i + 1)
  }

  function ReviewsIssues(o: Object): (r: seq<Issue>)
    ensures r == [] <==> ("reviews" in o ==> ValidReviews(o["reviews"]))
  {
    if "reviews" !in o then []
    else if !o["reviews"].JArr? then [TypeIssue([Key("reviews")], "array", Some(o["reviews"]))]
    else ReviewElementIssues(o["reviews"].items, 0)
  }

  function LocationIssues(o: Object): (r: seq<Issue>)
    ensures r == [] <==> ("location" in o ==> ValidLocation(o["location"]))
  {
    if "location" !in o then []
    else
      var l := o["location"];
      var path := [Key("location")];
      if !l.JObj? then [TypeIssue(path, "object", Some(l))]
      else
        OptionalStringIssues(path, l.fields, "aisle")
        + OptionalStringIssues(path, l.fields, "section")
        + OptionalStringIssues(path, l.fields, "shelf")
  }

  /** All issues of an object, in the schema's key order. */
  function ObjectIssues(o: Object): (r: seq<Issue>)
    ensures r == [] <==> ValidProduct(JObj(o))
  {
    RequiredStringIssues([], o, "sku", SkuMessage)
    + RequiredStringIssues([], o, "name", NameMessage)
    + OptionalStringIssues([], o, "description")
    + OptionalStringIssues([], o, "category")
    + OptionalStringIssues([], o, "brand")
    + ImagesIssues(o)
    + PriceIssues(o)
    + RequiredStringIssues([], o, "currency", CurrencyMessage)
    + InStockIssues(o)
    + ReviewsIssues(o)
    + LocationIssues(o)
  }

  // ---------------------------------------------------------------------------
  // Parsed output: unknown keys are stripped at every object level
  // ---------------------------------------------------------------------------

  const ShapeKeys: set<string> :=
    {"sku", "name", "description", "category", "brand", "images", "price", "currency",
     "inStock", "reviews", "location"}
  const ReviewKeys: set<string> := {"user", "rating", "comment"}
  const LocationKeys: set<string> := {"aisle", "section", "shelf"}

  function Restrict(o: Object, keys: set<string>): (r: Object)
    ensures r.Keys == o.Keys * keys
    ensures forall k :: k in r ==> r[k] == o[k]
  {
    map k | k in o && k in keys :: o[k]
  }

  function StripReview(j: Json): Json {
    if j.JObj? then JObj(Restrict(j.fields, ReviewKeys)) else j
  }

  function StripReviews(items: seq<Json>): (r: seq<Json>)
    ensures |r| == |items|
    ensures forall i :: 0 <= i < |items| ==> r[i] == StripReview(items[i])
  {
    if items == [] then [] else [StripReview(items[0])] + StripReviews(items[1..])
  }

  /** The data `safeParse` hands back: shape keys only, nested objects stripped too. */
  function Strip(o: Object): (r: Object)
    ensures r.Keys == o.Keys * ShapeKeys
    ensures forall k :: k in r && k != "reviews" && k != "location" ==> r[k] == o[k]
  {
    var top := Restrict(o, ShapeKeys);
    var withReviews :=
      if "reviews" in top && top["reviews"].JArr? then top["reviews" := JArr(StripReviews(top["reviews"].items))]
      else top;
    if "location" in withReviews && withReviews["location"].JObj? then
      withReviews["location" := JObj(Restrict(withReviews["location"].fields, LocationKeys))]
    else withReviews
  }

  /** Stripping keeps a valid product valid. */
  lemma StripKeepsValid(o: Object)
    requires ValidProduct(JObj(o))
    ensures ValidProduct(JObj(Strip(o)))
  {
    var s := Strip(o);
    if "reviews" in o {
      var items := o["reviews"].items;
      var stripped := StripReviews(items);
      assert s["reviews"] == JArr(stripped);
      forall i | 0 <= i < |stripped|
        ensures ValidReview(stripped[i])
      {
        assert ValidReview(items[i]);
      }
    }
  }

  /** `productSchema.safeParse(item)`. */
  function Validate(item: Json): (r: Result<Object, seq<Issue>>)
    ensures r.Success? <==> ValidProduct(item)
    ensures r.Success? ==> r.value == Strip(item.fields) && ValidProduct(JObj(r.value))
    ensures r.Failure? ==> r.error != []
  {
    if !item.JObj? then Failure([TypeIssue([], "object", Some(item))])
    else
      var issues := ObjectIssues(item.fields);
      if issues == [] then
        StripKeepsValid(item.fields);
        Success(Strip(item.fields))
      else Failure(issues)
  }

  /** A review rated outside 1..5 makes the whole product fail, with the bound it broke. */
  lemma RatingOutOfRangeRejected(item: Json, i: nat)
    requires item.JObj? && "reviews" in item.fields && item.fields["reviews"].JArr?
    requires i < |item.fields["reviews"].items|
    requires var r := item.fields["reviews"].items[i];
      r.JObj? && "rating" in r.fields && r.fields["rating"].JNum?
      && (r.fields["rating"].n < 1.0 || r.fields["rating"].n > 5.0)
    ensures Validate(item).Failure?
  {
    assert !ValidReview(item.fields["reviews"].items[i]);
  }
}

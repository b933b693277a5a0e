/**
  The product-location summary of the navigation agent
  (backend/ec2/live-gemini/src/live_gemini/agents/navigation_agent.py, the
  loop before the prompt is formatted): one line per retrieved product with
  its aisle, section and shelf, "Unknown" standing in for what is missing.
  Python's `str()` of a value that is not a string is a parameter.
 */
module Navigation {
  import opened Wrappers
  import opened Json
  import opened Text

  const Unknown := "Unknown"

  /** Python's `str(v)` for the values that reach the f-string: a string is itself. */
  ghost predicate RendersStrings(render: Json -> string) {
    forall s :: render(JStr(s)) == s
  }

  /** The values a product line is made of, with their defaults applied. */
  datatype Parts = Parts(name: Json, aisle: Json, section: Json, shelf: Json)

  /** `product.get(...)` and `location.get(...)` with their defaults; `.get` on a non-dict raises. */
  function PartsOf(product: Json): (r: Result<Parts, string>)
    ensures r.Success? <==>
              product.JObj? && ("location" !in product.fields || product.fields["location"].JObj?)
    ensures r.Success? && "location" !in product.fields ==>
              r.value.aisle == r.value.section == r.value.shelf == JStr(Unknown)
    ensures r.Success? ==> r.value.name == Get(product.fields, "name", JStr(Unknown))
    ensures r.Success? && "location" in product.fields ==>
              var loc := product.fields["location"].fields;
              && r.value.aisle == Get(loc, "aisle", JStr(Unknown))
              && r.value.section == Get(loc, "section", JStr(Unknown))
              && r.value.shelf == Get(loc, "shelf", JStr(Unknown))
  {
    if !product.JObj? then Failure(NoGetError)
    else
      var name := Get(product.fields, "name", JStr(Unknown));
      var location := Get(product.fields, "location", JObj(map[]));
      if !location.JObj? then Failure(NoGetError)
      else
        Success(Parts(name,
                      Get(location.fields, "aisle", JStr(Unknown)),
                      Get(location.fields, "section", JStr(Unknown)),
                      Get(location.fields, "shelf", JStr(Unknown))))
  }

  /** `f"{name}: aisle {aisle}, section {section}, shelf {shelf}"`. */
  function Line(p: Parts, render: Json -> string): string {
    render(p.name) + ": aisle " + render(p.aisle) + ", section " + render(p.section) + ", shelf " + render(p.shelf)
  }

  function ProductLine(product: Json, render: Json -> string): (r: Result<string, string>)
    ensures r.Success? <==> PartsOf(product).Success?
  {
    var parts :- PartsOf(product);
    Success(Line(parts, render))
  }

  /**
    The products `for product in ...` visits. A list is visited item by item;
    an empty dict or string visits nothing, while a non-empty one visits keys
    or characters, strings whose `.get` then raises; anything else is not iterable.
   */
  function ProductsOf(products: Json): (r: Result<seq<Json>, string>)
    ensures products.JArr? ==> r == Success(products.items)
    ensures r.Success? ==> products.JArr? || r.value == []
  {
    match products
    case JArr(items) => Success(items)
    case JObj(fields) => if fields == map[] then Success([]) else Failure(NoGetError)
    case JStr(s) => if s == "" then Success([]) else Failure(NoGetError)
    case _ => Failure(NotIterableError)
  }

  /** `locations_str`: every product's line, in order, joined by newlines. */
  function Locations(retrieved: Object, render: Json -> string): (r: Result<string, string>)
    ensures "products" !in retrieved ==> r == Success("")
  {
    var products :- ProductsOf(Get(retrieved, "products", JArr([])));
    var lines :- All(seq(|products|, i requires 0 <= i < |products| => ProductLine(products[i], render)));
    Success(Join("\n", lines))
  }

  /** The lines of `products`, every one of which yields a line. */
  function LinesOf(products: seq<Json>, render: Json -> string): (r: seq<string>)
    requires forall j :: 0 <= j < |products| ==> ProductLine(products[j], render).Success?
    ensures |r| == |products|
    ensures forall j :: 0 <= j < |products| ==> r[j] == ProductLine(products[j], render).value
  {
    seq(|products|, j requires 0 <= j < |products| => ProductLine(products[j], render).value)
  }

  /**
    When every product yields a line, the summary is those lines, in
    product order, joined by single newlines; line i sits at its offset.
   */
  lemma LocationsLines(retrieved: Object, render: Json -> string, i: nat)
    requires "products" in retrieved && retrieved["products"].JArr?
    requires forall j :: 0 <= j < |retrieved["products"].items| ==>
               ProductLine(retrieved["products"].items[j], render).Success?
    requires i < |retrieved["products"].items|
    ensures var lines := LinesOf(retrieved["products"].items, render);
      && Locations(retrieved, render) == Success(Join("\n", lines))
      && Offset("\n", lines, i) + |lines[i]| <= |Join("\n", lines)|
      && Join("\n", lines)[Offset("\n", lines, i) .. Offset("\n", lines, i) + |lines[i]|]
           == ProductLine(retrieved["products"].items[i], render).value
  {
    var products := retrieved["products"].items;
    var outcomes := seq(|products|, j requires 0 <= j < |products| => ProductLine(products[j], render));
    assert All(outcomes).value == LinesOf(products, render);
    JoinPart("\n", LinesOf(products, render), i);
  }

  /**
    One product that is not a dict, or whose location is not a dict, fails
    the whole summary with the error of the first such product.
   */
  lemma LocationsFailFirst(retrieved: Object, render: Json -> string, i: nat)
    requires "products" in retrieved && retrieved["products"].JArr?
    requires i < |retrieved["products"].items|
    requires ProductLine(retrieved["products"].items[i], render).Failure?
    requires forall j :: 0 <= j < i ==> ProductLine(retrieved["products"].items[j], render).Success?
    ensures Locations(retrieved, render) == Failure(NoGetError)
  {
    var products := retrieved["products"].items;
    var outcomes := seq(|products|, j requires 0 <= j < |products| => ProductLine(products[j], render));
    assert outcomes[i].Failure?;
    var r := All(outcomes);
    assert r.Failure?;
    var k :| 0 <= k < |outcomes| && outcomes[k].Failure? && outcomes[k].error == r.error;
    assert PartsOf(products[k]).Failure?;
  }

  /** A product with a name and all three location fields reads `name: aisle A, section S, shelf H`. */
  lemma LineFormat(name: string, aisle: string, section: string, shelf: string, render: Json -> string)
    requires RendersStrings(render)
    ensures var location := JObj(map["aisle" := JStr(aisle), "section" := JStr(section), "shelf" := JStr(shelf)]);
      ProductLine(JObj(map["name" := JStr(name), "location" := location]), render)
        == Success(name + ": aisle " + aisle + ", section " + section + ", shelf " + shelf)
  {
  }

  /** A dict with neither name nor location reads Unknown in all four places. */
  lemma EmptyProductUnknown(render: Json -> string)
    requires RendersStrings(render)
    ensures ProductLine(JObj(map[]), render)
              == Success(Unknown + ": aisle " + Unknown + ", section " + Unknown + ", shelf " + Unknown)
  {
  }

  /**
    The summary is undone by splitting on newlines when no line contains
    one: `locations_str.split("\n")` gives back the product lines.
   */
  lemma LocationsSplit(retrieved: Object, render: Json -> string)
    requires "products" in retrieved && retrieved["products"].JArr? && |retrieved["products"].items| > 0
    requires forall j :: 0 <= j < |retrieved["products"].items| ==>
               ProductLine(retrieved["products"].items[j], render).Success?
    requires forall j :: 0 <= j < |retrieved["products"].items| ==>
               Free(ProductLine(retrieved["products"].items[j], render).value, '\n')
    ensures Locations(retrieved, render).Success?
    ensures SplitOn(Locations(retrieved, render).value, '\n') == LinesOf(retrieved["products"].items, render)
  {
    var products := retrieved["products"].items;
    var lines := LinesOf(products, render);
    LocationsLines(retrieved, render, 0);
    assert "\n" == ['\n'];
    assert forall j :: 0 <= j < |lines| ==> lines[j] == ProductLine(products[j], render).value;
    SplitJoin(lines, '\n');
  }

  /** No products, or none at all under the key, gives the empty string. */
  lemma NoProductsEmpty(retrieved: Object, render: Json -> string)
    requires "products" !in retrieved || retrieved["products"] == JArr([])
    ensures Locations(retrieved, render) == Success("")
  {
  }
}

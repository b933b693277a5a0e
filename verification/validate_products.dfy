/**
  The `validate_products` tool of the live agent server
  (`ValidateProductsTool.execute` in
  backend/ec2/live-gemini/src/live_gemini/tools/validate_products_tool.py):
  index the retrieved products by SKU, then pick the requested SKUs in the
  order they were requested. Python values are JSON values; what Python would
  raise is a failure carrying the exception's kind.
 */
module ValidateProducts {
  import opened Wrappers
  import opened Json

  /**
    A hashable Python value as a dict key. Python's equality makes `True`,
    `1` and `1.0` the same key (and `False`, `0`, `0.0`), so booleans become numbers.
   */
  datatype PyKey = KNone | KNum(n: real) | KStr(s: string)

  /** The key a value stands for in a dict, or None when it is unhashable (a list or a dict). */
  function KeyOf(j: Json): (r: Option<PyKey>)
    ensures r.None? <==> j.JArr? || j.JObj?
    ensures j.JStr? ==> r == Some(KStr(j.s))
  {
    match j
    case JNull => Some(KNone)
    case JBool(b) => Some(KNum(if b then 1.0 else 0.0))
    case JNum(n) => Some(KNum(n))
    case JStr(s) => Some(KStr(s))
    case _ => None
  }
  /** `True` and `1` (or `1.0`), and `False` and `0`, are the same dict key. */
  lemma BoolKeysAreNumbers()
    ensures KeyOf(JBool(true)) == KeyOf(JNum(1.0)) && KeyOf(JBool(false)) == KeyOf(JNum(0.0))
    ensures KeyOf(JBool(true)) != KeyOf(JStr("True"))
  {
  }


  const UnhashableError := "TypeError: unhashable type"
  const StringIndexError := "TypeError: string indices must be integers"
  const ListIndexError := "TypeError: list indices must be integers or slices, not str"
  const NotContainerError := "TypeError: argument of type is not iterable"

  /** The keys of a dict, each once, in some order (insertion order is not recorded by `Json`). */
  ghost function KeysInSomeOrder(m: map<string, Json>): (r: seq<string>)
    ensures |r| == |m.Keys|
    ensures forall k :: k in r <==> k in m
    decreases |m.Keys|
  {
    if m.Keys == {} then []
    else
      var k :| k in m;
      var rest := KeysInSomeOrder(m - {k});
      assert (m - {k}).Keys == m.Keys - {k};
      [k] + rest
  }

  /** What `for x in j` visits: list items, dict keys, or one-character strings. */
  ghost function Elements(j: Json): (r: Result<seq<Json>, string>)
    ensures r.Failure? <==> j.JNull? || j.JBool? || j.JNum?
    ensures j.JArr? ==> r == Success(j.items)
    ensures j.JStr? ==> r.Success? && |r.value| == |j.s|
    ensures j.JObj? ==> r.Success? && forall i :: 0 <= i < |r.value| ==> r.value[i].JStr?
  {
    match j
    case JArr(items) => Success(items)
    case JObj(fields) =>
      var keys := KeysInSomeOrder(fields);
      Success(seq(|keys|, i requires 0 <= i < |keys| => JStr(keys[i])))
    case JStr(s) => Success(seq(|s|, i requires 0 <= i < |s| => JStr([s[i]])))
    case _ => Failure(NotIterableError)
  }

  /** Python's `sub in s` on strings. */
  predicate Contains(s: string, sub: string) {
    exists i :: 0 <= i <= |s| - |sub| && sub <= s[i..]
  }

  /** A product that passes the filter: its SKU as a key, and its `_source`. */
  datatype Keyed = Keyed(key: PyKey, source: Json)

  /**
    One entry of the dict comprehension: skipped (None), kept under its SKU,
    or the exception Python raises on the way. `"sku" in _source` is a key
    test on a dict, a substring test on a string and an element test on a
    list; the last two, when true, make `_source["sku"]` raise, and any other
    `_source` cannot be searched at all.
   */
  function SourceSku(product: Json): (r: Result<Option<Keyed>, string>)
    ensures r.Success? && r.value.Some? ==>
              && product.JObj? && "_source" in product.fields
              && product.fields["_source"].JObj?
              && "sku" in product.fields["_source"].fields
              && r.value.value.source == product.fields["_source"]
              && Some(r.value.value.key) == KeyOf(product.fields["_source"].fields["sku"])
    ensures !product.JObj? || "_source" !in product.fields ==> r == Success(None)
    ensures product.JObj? && "_source" in product.fields && product.fields["_source"].JObj? ==>
              var src := product.fields["_source"].fields;
              ("sku" !in src ==> r == Success(None))
              && ("sku" in src && src["sku"].JStr? ==> r == Success(Some(Keyed(KStr(src["sku"].s), product.fields["_source"]))))
  {
    if !product.JObj? || "_source" !in product.fields then Success(None)
    else
      var src := product.fields["_source"];
      match src
      case JObj(fields) =>
        if "sku" !in fields then Success(None)
        else
          (match KeyOf(fields["sku"])
           case None => Failure(UnhashableError)
           case Some(k) => Success(Some(Keyed(k, src))))
      case JStr(s) => if Contains(s, "sku") then Failure(StringIndexError) else Success(None)
      case JArr(items) => if JStr("sku") in items then Failure(ListIndexError) else Success(None)
      case _ => Failure(NotContainerError)
  }

  /** The entry is kept, under key k. */
  predicate KeyedAs(product: Json, k: PyKey) {
    SourceSku(product).Success? && SourceSku(product).value.Some? && SourceSku(product).value.value.key == k
  }

  /**
    `all_product_details_by_sku`: the comprehension over the products in
    order, so a later product with the same SKU replaces an earlier one.
   */
  function SkuMap(products: seq<Json>): (r: Result<map<PyKey, Json>, string>)
    ensures r.Success? <==> forall i :: 0 <= i < |products| ==> SourceSku(products[i]).Success?
    decreases |products|
  {
    if products == [] then Success(map[])
    else
      var init := products[..|products| - 1];
      var last := products[|products| - 1];
      assert forall i :: 0 <= i < |init| ==> init[i] == products[i];
      var m :- SkuMap(init);
      var entry :- SourceSku(last);
      match entry
      case None => Success(m)
      case Some(Keyed(k, src)) => Success(m[k := src])
  }

  /**
    The list comprehension over the requested SKUs: the details of each one
    present in the map, in request order; an unhashable SKU raises.
   */
  function Select(requested: seq<Json>, bySku: map<PyKey, Json>): (r: Result<seq<Json>, string>)
    ensures r.Success? <==> forall i :: 0 <= i < |requested| ==> KeyOf(requested[i]).Some?
    ensures r.Success? ==> |r.value| <= |requested|
    ensures r.Success? ==> forall j :: 0 <= j < |r.value| ==> r.value[j] in bySku.Values
  {
    if requested == [] then Success([])
    else
      match KeyOf(requested[0])
      case None => Failure(UnhashableError)
      case Some(k) =>
        var rest :- Select(requested[1..], bySku);
        assert forall i :: 1 <= i < |requested| ==> requested[i] == requested[1..][i - 1];
        if k in bySku then Success([bySku[k]] + rest) else Success(rest)
  }

  /** After the `results` unwrapping: build the map, then select. */
  ghost function Pipeline(products: Json, source: Json): (r: Result<seq<Json>, string>)
  {
    var entries :- Elements(source);
    var bySku :- SkuMap(entries);
    var requested :- Elements(products);
    Select(requested, bySku)
  }

  /** `execute(tool_call, allProducts)`. */
  ghost function Execute(toolCall: Object, allProducts: Json): (r: Result<seq<Json>, string>)
    ensures "arguments" in toolCall && !toolCall["arguments"].JObj? ==> r == Failure(NoGetError)
    ensures allProducts.JObj? && "results" in allProducts.fields && ("arguments" !in toolCall || toolCall["arguments"].JObj?) ==>
              r == Pipeline(Get(if "arguments" in toolCall then toolCall["arguments"].fields else map[], "products", JArr([])),
                            allProducts.fields["results"])
    ensures !(allProducts.JObj? && "results" in allProducts.fields) && ("arguments" !in toolCall || toolCall["arguments"].JObj?) ==>
              r == Pipeline(Get(if "arguments" in toolCall then toolCall["arguments"].fields else map[], "products", JArr([])),
                            allProducts)
  {
    var args := if "arguments" in toolCall then toolCall["arguments"] else JObj(map[]);
    if !args.JObj? then Failure(NoGetError)
    else
      var products := Get(args.fields, "products", JArr([]));
      var source := if allProducts.JObj? && "results" in allProducts.fields then allProducts.fields["results"] else allProducts;
      Pipeline(products, source)
  }

  /** The map's keys are exactly the SKUs of the products the filter keeps. */
  lemma {:induction false} SkuMapKeys(products: seq<Json>, k: PyKey)
    requires SkuMap(products).Success?
    ensures k in SkuMap(products).value <==> exists i :: 0 <= i < |products| && KeyedAs(products[i], k)
    decreases |products|
  {
    if products != [] {
      var init := products[..|products| - 1];
      var last := products[|products| - 1];
      assert forall i :: 0 <= i < |init| ==> init[i] == products[i];
      SkuMapKeys(init, k);
      if k in SkuMap(products).value && !KeyedAs(last, k) {
        assert k in SkuMap(init).value;
        var i :| 0 <= i < |init| && KeyedAs(init[i], k);
        assert KeyedAs(products[i], k);
      }
    }
  }

  /** Each SKU maps to the `_source` of the last product carrying it: later duplicates win. */
  lemma {:induction false} SkuMapLastWins(products: seq<Json>, i: nat, k: PyKey)
    requires SkuMap(products).Success?
    requires i < |products| && KeyedAs(products[i], k)
    requires forall j :: i < j < |products| ==> !KeyedAs(products[j], k)
    ensures k in SkuMap(products).value
    ensures SkuMap(products).value[k] == SourceSku(products[i]).value.value.source
    decreases |products|
  {
    var init := products[..|products| - 1];
    var last := products[|products| - 1];
    assert forall j :: 0 <= j < |init| ==> init[j] == products[j];
    if i < |products| - 1 {
      assert !KeyedAs(last, k);
      SkuMapLastWins(init, i, k);
    }
  }

  /** Selection distributes over concatenation of the request, so the output follows request order. */
  lemma {:induction false} SelectAppend(a: seq<Json>, b: seq<Json>, bySku: map<PyKey, Json>)
    requires Select(a, bySku).Success? && Select(b, bySku).Success?
    ensures Select(a + b, bySku) == Success(Select(a, bySku).value + Select(b, bySku).value)
    decreases |a|
  {
    if a != [] {
      assert (a + b)[1..] == a[1..] + b;
      SelectAppend(a[1..], b, bySku);
      assert (a + b)[0] == a[0];
      var k := KeyOf(a[0]).value;
      var p, q := Select(a[1..], bySku).value, Select(b, bySku).value;
      if k in bySku {
        assert Select(a, bySku).value == [bySku[k]] + p;
        assert [bySku[k]] + (p + q) == ([bySku[k]] + p) + q;
      } else {
        assert Select(a, bySku).value == p;
      }
    } else {
      assert a + b == b;
      assert Select(a, bySku).value == [];
      assert [] + Select(b, bySku).value == Select(b, bySku).value;
    }
  }

  /** One requested SKU gives its details when present and nothing when absent. */
  lemma SelectOne(sku: Json, bySku: map<PyKey, Json>)
    requires KeyOf(sku).Some?
    ensures KeyOf(sku).value in bySku ==> Select([sku], bySku) == Success([bySku[KeyOf(sku).value]])
    ensures KeyOf(sku).value !in bySku ==> Select([sku], bySku) == Success([])
  {
    assert [sku][1..] == [];
    assert Select([], bySku) == Success([]);
    assert [sku][0] == sku;
    if KeyOf(sku).value in bySku {
      assert [bySku[KeyOf(sku).value]] + [] == [bySku[KeyOf(sku).value]];
    }
  }

  /** Entries the filter skips leave the map as it was. */
  lemma SkippedEntryIgnored(products: seq<Json>, p: Json)
    requires SourceSku(p) == Success(None)
    ensures SkuMap(products + [p]) == SkuMap(products)
  {
    assert (products + [p])[..|products|] == products;
  }

  /** Of two products with the same SKU, the one listed later is the one selected. */
  lemma LaterDuplicateWins(first: Json, second: Json, sku: string)
    requires first.JObj? && "_source" in first.fields && first.fields["_source"].JObj?
    requires second.JObj? && "_source" in second.fields && second.fields["_source"].JObj?
    requires "sku" in first.fields["_source"].fields && first.fields["_source"].fields["sku"] == JStr(sku)
    requires "sku" in second.fields["_source"].fields && second.fields["_source"].fields["sku"] == JStr(sku)
    ensures Pipeline(JArr([JStr(sku)]), JArr([first, second])) == Success([second.fields["_source"]])
  {
    var ps := [first, second];
    assert ps[..1] == [first];
    assert [first][..0] == [];
    var m := SkuMap(ps).value;
    assert m[KStr(sku)] == second.fields["_source"];
    SelectOne(JStr(sku), m);
  }

  /** Without `arguments`, or without `products` in them, nothing is selected. */
  lemma NoRequestNoProducts(toolCall: Object, allProducts: Json)
    requires "arguments" !in toolCall
             || (toolCall["arguments"].JObj? && "products" !in toolCall["arguments"].fields)
    requires var source := if allProducts.JObj? && "results" in allProducts.fields then allProducts.fields["results"] else allProducts;
             Elements(source).Success? && SkuMap(Elements(source).value).Success?
    ensures Execute(toolCall, allProducts) == Success([])
  {
  }
}

/** The product resource client (src/services/productService.js): the list query built from
    optional filters, and the paths of the single-product calls. */
module ProductService {
  import opened Wrappers
  import opened Text
  import opened Catalog
  import opened Api

  /** A filter value as JavaScript holds it. */
  datatype JsValue = Undefined | Null | Bool(b: bool) | Num(n: int) | Str(s: string)

  /** The `filters` object of `getAll`; an absent key reads as `Undefined`. */
  datatype Filters = Filters(categoryId: JsValue, inStock: JsValue)

  /** `{}`, the default filters. */
  const NoFilters: Filters := Filters(Undefined, Undefined)

  /** JavaScript truthiness. */
  predicate Truthy(v: JsValue) {
    match v
    case Undefined => false
    case Null => false
    case Bool(b) => b
    case Num(n) => n != 0
    case Str(s) => s != ""
  }

  /** `String(v)`, as `URLSearchParams.append` stores a value. String values are taken as
      already encoded. */
  function Stringify(v: JsValue): string {
    match v
    case Undefined => "undefined"
    case Null => "null"
    case Bool(b) => if b then "true" else "false"
    case Num(n) => IntToString(n)
    case Str(s) => s
  }

  /** The value of the first parameter named `key`. */
  function Lookup(ps: seq<(string, string)>, key: string): Option<string> {
    if ps == [] then None else if ps[0].0 == key then Some(ps[0].1) else Lookup(ps[1..], key)
  }

  /** The parameters `getAll` appends, in order: `categoryId` only when the filter is truthy,
      `inStock` whenever it is not `undefined`. */
  function QueryParams(f: Filters): (ps: seq<(string, string)>)
    ensures |ps| <= 2
    ensures forall i :: 0 <= i < |ps| ==> ps[i].0 == "categoryId" || ps[i].0 == "inStock"
    ensures |ps| == 2 ==> ps[0].0 == "categoryId" && ps[1].0 == "inStock"
    ensures Lookup(ps, "categoryId") == if Truthy(f.categoryId) then Some(Stringify(f.categoryId)) else None
    ensures Lookup(ps, "inStock") == if f.inStock != Undefined then Some(Stringify(f.inStock)) else None
  {
    (if Truthy(f.categoryId) then [("categoryId", Stringify(f.categoryId))] else []) +
    (if f.inStock != Undefined then [("inStock", Stringify(f.inStock))] else [])
  }

  function Pair(p: (string, string)): string {
    p.0 + "=" + p.1
  }

  /** `params.toString()`: `key=value` pairs joined by `&`. */
  function SerializeQuery(ps: seq<(string, string)>): string {
    if |ps| == 0 then ""
    else if |ps| == 1 then Pair(ps[0])
    else Pair(ps[0]) + "&" + SerializeQuery(ps[1..])
  }

  /** `new URLSearchParams(s)` read back as a list of pairs, as the server sees the query. */
  function ParseQuery(s: string): seq<(string, string)> {
    if s == "" then []
    else
      var parts := Split(s, '&');
      seq(|parts|, i requires 0 <= i < |parts| => SplitFirst(parts[i], '='))
  }

  /** Keys free of `&` and `=`, values free of `&`: what percent-encoding guarantees. */
  predicate WellFormed(ps: seq<(string, string)>) {
    forall i :: 0 <= i < |ps| ==> '&' !in ps[i].0 && '=' !in ps[i].0 && '&' !in ps[i].1
  }

  function PairStrings(ps: seq<(string, string)>): seq<string> {
    seq(|ps|, i requires 0 <= i < |ps| => Pair(ps[i]))
  }

  lemma {:induction false} SplitSerialized(ps: seq<(string, string)>)
    requires |ps| >= 1 && WellFormed(ps)
    ensures Split(SerializeQuery(ps), '&') == PairStrings(ps)
  {
    var first := Pair(ps[0]);
    assert '&' !in first by {
      assert first == ps[0].0 + "=" + ps[0].1;
    }
    if |ps| == 1 {
      SplitNoSeparator(first, '&');
    } else {
      var rest := ps[1..];
      assert WellFormed(rest) by {
        forall i | 0 <= i < |rest| ensures '&' !in rest[i].0 && '=' !in rest[i].0 && '&' !in rest[i].1 {
          assert rest[i] == ps[i + 1];
        }
      }
      SplitSerialized(rest);
      SplitAtFirst(first, '&', SerializeQuery(rest));
      assert [first] + PairStrings(rest) == PairStrings(ps);
    }
  }

  /** The query string reads back as the parameters it was built from. */
  lemma QueryRoundTrip(ps: seq<(string, string)>)
    requires WellFormed(ps)
    ensures ParseQuery(SerializeQuery(ps)) == ps
  {
    if |ps| >= 1 {
      var s := SerializeQuery(ps);
      assert |s| > 0;
      SplitSerialized(ps);
      var parts := Split(s, '&');
      forall i | 0 <= i < |ps| ensures SplitFirst(parts[i], '=') == ps[i] {
        SplitFirstAt(ps[i].0, '=', ps[i].1);
        assert parts[i] == ps[i].0 + "=" + ps[i].1;
      }
    }
  }

  const ListPrefix: string := "/products?"
  const ItemPrefix: string := "/products/"

  function ProductsListPath(f: Filters): string {
    ListPrefix + SerializeQuery(QueryParams(f))
  }

  /** Filter values free of `&`, as `URLSearchParams` would have encoded them. */
  predicate EncodedFilters(f: Filters) {
    '&' !in Stringify(f.categoryId) && '&' !in Stringify(f.inStock)
  }

  /** `getAll`'s path: `/products?` followed by the query of the conditionally appended
      parameters, which the server reads back as exactly those parameters. */
  method GetAllPath(filters: Filters) returns (path: string)
    ensures path == ProductsListPath(filters)
    ensures |path| >= |ListPrefix| && path[..|ListPrefix|] == ListPrefix
    ensures EncodedFilters(filters) ==> ParseQuery(path[|ListPrefix|..]) == QueryParams(filters)
  {
    var params: seq<(string, string)> := [];
    if Truthy(filters.categoryId) {
      params := params + [("categoryId", Stringify(filters.categoryId))];
    }
    if filters.inStock != Undefined {
      params := params + [("inStock", Stringify(filters.inStock))];
    }
    path := ListPrefix + SerializeQuery(params);
    assert path[|ListPrefix|..] == SerializeQuery(params);
    if EncodedFilters(filters) {
      QueryRoundTrip(params);
    }
  }

  /** With no filters the path is `/products?`, trailing `?` included. */
  lemma EmptyFiltersPath()
    ensures ProductsListPath(NoFilters) == "/products?"
  {
  }

  /** A falsy `categoryId` emits nothing. */
  lemma FalsyCategoryOmitted()
    ensures ProductsListPath(Filters(Num(0), Undefined)) == "/products?"
    ensures ProductsListPath(Filters(Str(""), Undefined)) == "/products?"
  {
    assert QueryParams(Filters(Num(0), Undefined)) == [];
    assert QueryParams(Filters(Str(""), Undefined)) == [];
  }

  /** `inStock: false` is still emitted. */
  lemma FalseInStockEmitted()
    ensures ProductsListPath(Filters(Undefined, Bool(false))) == "/products?inStock=false"
  {
    assert QueryParams(Filters(Undefined, Bool(false))) == [("inStock", "false")];
  }

  /** Both parameters: `categoryId` first, then `inStock`. */
  lemma BothFiltersOrder(categoryId: string, inStock: bool)
    requires categoryId != ""
    ensures var stock := if inStock then "true" else "false";
      ProductsListPath(Filters(Str(categoryId), Bool(inStock))) ==
      ListPrefix + "categoryId" + "=" + categoryId + "&" + "inStock" + "=" + stock
  {
    var stock := if inStock then "true" else "false";
    var both := [("categoryId", categoryId), ("inStock", stock)];
    assert QueryParams(Filters(Str(categoryId), Bool(inStock))) == both;
    assert SerializeQuery(both[1..]) == Pair(both[1]);
  }

  /** `GET /products?…`, with no body. */
  function GetAllRequest(f: Filters): (r: Request)
    ensures r.verb == "get" && r.body == NoBody
    ensures r.path == ProductsListPath(f)
  {
    Request("get", ProductsListPath(f), NoBody)
  }

  /** `GET /…/:id`: the path names the record asked for. */
  function GetByIdRequest(id: Id): (r: Request)
    ensures r.verb == "get" && r.body == NoBody && PathId(ItemPrefix, r.path) == Some(id)
  {
    Request("get", ItemPath(ItemPrefix, id), NoBody)
  }

  /** `POST /products` with the payload as its body. */
  function CreateRequest(payload: ProductPayload): (r: Request)
    ensures r.verb == "post" && r.path == "/products" && r.body == ProductBody(payload)
  {
    Request("post", "/products", ProductBody(payload))
  }

  /** `PUT /products/:id` with the payload as its body. */
  function UpdateRequest(id: Id, payload: ProductPayload): (r: Request)
    ensures r.verb == "put" && r.body == ProductBody(payload) && PathId(ItemPrefix, r.path) == Some(id)
  {
    Request("put", ItemPath(ItemPrefix, id), ProductBody(payload))
  }

  /** `DELETE /…/:id`: the path names the record deleted. */
  function DeleteRequest(id: Id): (r: Request)
    ensures r.verb == "delete" && r.body == NoBody && PathId(ItemPrefix, r.path) == Some(id)
  {
    Request("delete", ItemPath(ItemPrefix, id), NoBody)
  }

  /** The writes carry the API key and the reads do not. */
  lemma ApiKeyOnWritesOnly(f: Filters, id: Id, payload: ProductPayload)
    ensures IsWriteMethod(CreateRequest(payload).verb)
    ensures IsWriteMethod(UpdateRequest(id, payload).verb)
    ensures IsWriteMethod(DeleteRequest(id).verb)
    ensures !IsWriteMethod(GetAllRequest(f).verb) && !IsWriteMethod(GetByIdRequest(id).verb)
  {
    WriteMethodExamples();
    ReadMethodExamples();
  }
}

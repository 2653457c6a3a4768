/**
 * The client-tool parameter normalisers of the storefront widget: which products
 * `handleShowProductCard` displays, which items `handleAddToCart` reads, and the cart lines
 * `addItemsToOdooCart` sends to the cart endpoint.
 */
module WidgetTools {
  import opened Wrappers
  import opened JsValues

  // ---------------------------------------------------------------------------
  // showProductCard

  /**
   * The product list taken out of the tool parameters: an array is used as it is; an object
   * contributes its `products` array, failing that its `Products` array; anything else gives none.
   */
  function ProductsParam(params: JsValue): (products: seq<JsValue>)
    ensures params.Array? ==> products == params.elems
    ensures !params.Array? && !params.Object? ==> products == []
    ensures params.Object? && Prop(params, "products").Array? ==> products == Prop(params, "products").elems
    ensures params.Object? && !Prop(params, "products").Array? && Prop(params, "Products").Array? ==>
              products == Prop(params, "Products").elems
    ensures params.Object? && !Prop(params, "products").Array? && !Prop(params, "Products").Array? ==> products == []
  {
    if params.Array? then params.elems
    else if params.Object? then
      var lower := Prop(params, "products");
      var upper := Prop(params, "Products");
      if lower.Array? then lower.elems
      else if upper.Array? then upper.elems
      else []
    else []
  }

  /** What `handleShowProductCard` does: nothing for an empty list, otherwise the product modal. */
  datatype CardDisplay = NoProducts | ProductModal(products: seq<JsValue>)

  function ShowProductCard(params: JsValue): (d: CardDisplay)
    ensures d.NoProducts? <==> ProductsParam(params) == []
    ensures d.ProductModal? ==> d.products == ProductsParam(params) && |d.products| > 0
  {
    var products := ProductsParam(params);
    if |products| == 0 then NoProducts else ProductModal(products)
  }

  /**
   * The search tool hands its results over as `{products: results}`; that shows the same cards as
   * passing the array itself, and so does the capitalised `{Products: results}`.
   */
  lemma WrappedProductsShowSameCards(results: seq<JsValue>)
    ensures ShowProductCard(Single("products", Array(results))) == ShowProductCard(Array(results))
    ensures ShowProductCard(Single("Products", Array(results))) == ShowProductCard(Array(results))
  {
    assert Prop(Single("Products", Array(results)), "products") == Undefined;
  }

  // ---------------------------------------------------------------------------
  // addToCart

  /** The item `{product, quantity}` built for a single-product call. */
  function SingleItem(product: JsValue, quantity: JsValue): JsValue {
    Object(map["product" := product, "quantity" := quantity])
  }

  /**
   * The items `handleAddToCart` reads from its parameters: the `items` array, failing that the
   * `Items` array, failing that the parameters themselves when they are an array, failing that one
   * item built from `product || Product` and `quantity || Quantity || 1`, and otherwise none.
   * Reading a property of `null` or `undefined` parameters throws.
   */
  function CartItems(params: JsValue): (r: Result<seq<JsValue>, TypeError>)
    ensures r.Failure? <==> Nullish(params)
    ensures params.Object? && Prop(params, "items").Array? ==> r == Success(Prop(params, "items").elems)
    ensures params.Object? && !Prop(params, "items").Array? && Prop(params, "Items").Array? ==>
              r == Success(Prop(params, "Items").elems)
    ensures params.Array? ==> r == Success(params.elems)
    ensures r.Success? && !params.Object? && !params.Array? ==> r.value == []
    ensures params.Object? && !Prop(params, "items").Array? && !Prop(params, "Items").Array? ==>
              (r.value == [] <==> !Truthy(Prop(params, "product")) && !Truthy(Prop(params, "Product")))
    ensures params.Object? && !Prop(params, "items").Array? && !Prop(params, "Items").Array? && r.value != [] ==>
              r.value == [SingleItem(FirstTruthy([Prop(params, "product")], Prop(params, "Product")),
                                     FirstTruthy([Prop(params, "quantity"), Prop(params, "Quantity")], Num(1.0)))] &&
              Truthy(Prop(r.value[0], "product")) && Truthy(Prop(r.value[0], "quantity"))
  {
    if Nullish(params) then Failure(ReadPropertyOfNullish)
    else
      var lower := Prop(params, "items");
      var upper := Prop(params, "Items");
      if lower.Array? then Success(lower.elems)
      else if upper.Array? then Success(upper.elems)
      else if params.Array? then Success(params.elems)
      else
        var product := Or(Prop(params, "product"), Prop(params, "Product"));
        OrIsFirstTruthy(Prop(params, "product"), Prop(params, "Product"));
        OrChainIsFirstTruthy2(Prop(params, "quantity"), Prop(params, "Quantity"), Num(1.0));
        if Truthy(product) then
          Success([SingleItem(product, Or(Or(Prop(params, "quantity"), Prop(params, "Quantity")), Num(1.0)))])
        else Success([])
  }

  /** One entry of the cart request. */
  datatype CartLine = CartLine(sku: JsValue, productId: JsValue, productName: JsValue, quantity: JsValue)

  /**
   * The cart line of one item: `sku || SKU || product || Product || 'DEFAULT'`, `id || product_id
   * || null`, `product || Product || name || ''` and `quantity || Quantity || 1`. The SKU and the
   * quantity are never falsy.
   */
  function WidgetCartLine(item: JsValue): (line: CartLine)
    requires !Nullish(item)
    ensures line.sku == FirstTruthy([Prop(item, "sku"), Prop(item, "SKU"), Prop(item, "product"), Prop(item, "Product")], Str("DEFAULT"))
    ensures line.productId == FirstTruthy([Prop(item, "id"), Prop(item, "product_id")], Null)
    ensures line.productName == FirstTruthy([Prop(item, "product"), Prop(item, "Product"), Prop(item, "name")], Str(""))
    ensures line.quantity == FirstTruthy([Prop(item, "quantity"), Prop(item, "Quantity")], Num(1.0))
    ensures Truthy(line.sku) && Truthy(line.quantity)
    ensures Truthy(line.productId) || line.productId == Null
    ensures Truthy(line.productName) || line.productName == Str("")
  {
    OrChainIsFirstTruthy(Prop(item, "sku"), Prop(item, "SKU"), Prop(item, "product"), Prop(item, "Product"), Str("DEFAULT"));
    OrChainIsFirstTruthy3(Prop(item, "product"), Prop(item, "Product"), Prop(item, "name"), Str(""));
    OrChainIsFirstTruthy2(Prop(item, "id"), Prop(item, "product_id"), Null);
    OrChainIsFirstTruthy2(Prop(item, "quantity"), Prop(item, "Quantity"), Num(1.0));
    CartLine(
      Or(Or(Or(Or(Prop(item, "sku"), Prop(item, "SKU")), Prop(item, "product")), Prop(item, "Product")), Str("DEFAULT")),
      Or(Or(Prop(item, "id"), Prop(item, "product_id")), Null),
      Or(Or(Or(Prop(item, "product"), Prop(item, "Product")), Prop(item, "name")), Str("")),
      Or(Or(Prop(item, "quantity"), Prop(item, "Quantity")), Num(1.0)))
  }

  /**
   * `items.map(...)`, given the mapping of one item: it throws when any item is `null` or
   * `undefined`, and otherwise maps every item in order.
   */
  function MapItems<T>(items: seq<JsValue>, f: JsValue --> T): (r: Result<seq<T>, TypeError>)
    requires forall x :: !Nullish(x) ==> f.requires(x)
    ensures r.Failure? <==> exists i :: 0 <= i < |items| && Nullish(items[i])
    ensures r.Success? ==> |r.value| == |items| && forall i :: 0 <= i < |items| ==> r.value[i] == f(items[i])
  {
    if items == [] then Success([])
    else if Nullish(items[0]) then Failure(ReadPropertyOfNullish)
    else
      match MapItems(items[1..], f)
      case Failure(e) => Failure(e)
      case Success(rest) => Success([f(items[0])] + rest)
  }

  /** The whole add-to-cart tool: read the items, then build the request's cart lines. */
  function AddToCart(params: JsValue): (r: Result<seq<CartLine>, TypeError>)
    ensures r.Failure? <==> CartItems(params).Failure? ||
                            exists i :: 0 <= i < |CartItems(params).value| && Nullish(CartItems(params).value[i])
    ensures r.Success? ==> CartItems(params).Success? && |r.value| == |CartItems(params).value| &&
                           forall i :: 0 <= i < |r.value| ==>
                             !Nullish(CartItems(params).value[i]) && r.value[i] == WidgetCartLine(CartItems(params).value[i])
    ensures r.Success? ==> forall i :: 0 <= i < |r.value| ==> Truthy(r.value[i].sku) && Truthy(r.value[i].quantity)
  {
    match CartItems(params)
    case Failure(e) => Failure(e)
    case Success(items) => MapItems(items, WidgetCartLine)
  }

  /**
   * A single-product call with no quantity adds one unit, under the product's own name as SKU and
   * display name, with no product id.
   */
  lemma SingleProductAddsOneUnit(name: string)
    requires name != []
    ensures AddToCart(Single("product", Str(name))) == Success([CartLine(Str(name), Null, Str(name), Num(1.0))])
  {
    var item := SingleItem(Str(name), Num(1.0));
    SingleProductIsOneItem(name);
    SingleItemLine(name);
    assert MapItems([item], WidgetCartLine) == Success([WidgetCartLine(item)]) by {
      assert [item][1..] == [];
      assert MapItems([], WidgetCartLine) == Success([]);
      assert !Nullish([item][0]);
      assert [WidgetCartLine(item)] + [] == [WidgetCartLine(item)];
    }
  }

  /** `{product: name}` is read as one item of one unit. */
  lemma SingleProductIsOneItem(name: string)
    requires name != []
    ensures CartItems(Single("product", Str(name))) == Success([SingleItem(Str(name), Num(1.0))])
  {
    var params := Single("product", Str(name));
    assert Prop(params, "items") == Prop(params, "Items") == Undefined;
    assert Prop(params, "product") == Str(name) && Prop(params, "Product") == Undefined;
    assert Prop(params, "quantity") == Prop(params, "Quantity") == Undefined;
  }

  /** The cart line of that item names the product as SKU and display name, with no id. */
  lemma SingleItemLine(name: string)
    requires name != []
    ensures WidgetCartLine(SingleItem(Str(name), Num(1.0))) == CartLine(Str(name), Null, Str(name), Num(1.0))
  {
    var item := SingleItem(Str(name), Num(1.0));
    assert Prop(item, "sku") == Prop(item, "SKU") == Prop(item, "Product") == Undefined;
    assert Prop(item, "id") == Prop(item, "product_id") == Prop(item, "name") == Undefined;
    assert Prop(item, "product") == Str(name) && Prop(item, "quantity") == Num(1.0);
  }
}

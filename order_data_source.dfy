/**
 * The hashicups_order data source: look an order up by its integer id and
 * expose its items as flat blocks of seven computed attributes.
 */
module OrderDataSource {
  import opened Wrappers
  import opened Attributes
  import opened Strconv
  import opened HashiCupsClient
  import opened Diagnostics
  import OrderResource

  // ---------------------------------------------------------------------
  // The data source schema: every attribute of an item block is Computed.

  const DataItemAttrs: set<string> :=
    {"coffee_id", "coffee_name", "coffee_teaser", "coffee_description",
     "coffee_price", "coffee_image", "quantity"}

  predicate DataItemConforms(a: Attr) {
    && a.AMap?
    && a.fields.Keys <= DataItemAttrs
    && OptInt(a.fields, "coffee_id")
    && OptStr(a.fields, "coffee_name")
    && OptStr(a.fields, "coffee_teaser")
    && OptStr(a.fields, "coffee_description")
    && OptInt(a.fields, "coffee_price")
    && OptStr(a.fields, "coffee_image")
    && OptInt(a.fields, "quantity")
  }

  predicate DataItemsConform(items: seq<Attr>) {
    forall k :: 0 <= k < |items| ==> DataItemConforms(items[k])
  }

  /** The order item a conforming block denotes; an absent attribute reads as its zero value. */
  function DataItemOf(a: Attr): OrderItem
    requires DataItemConforms(a)
  {
    var f := a.fields;
    OrderItem(
      Coffee(IntAt(f, "coffee_id"), StrAt(f, "coffee_name"), StrAt(f, "coffee_teaser"),
             StrAt(f, "coffee_description"), IntAt(f, "coffee_price"), StrAt(f, "coffee_image")),
      IntAt(f, "quantity"))
  }

  // ---------------------------------------------------------------------
  // flattenOrderItemsData

  /** One element of flattenOrderItemsData's result: exactly the schema's seven attributes. */
  function FlattenItemData(oi: OrderItem): (r: Attr)
    ensures DataItemConforms(r)
    ensures r.fields.Keys == DataItemAttrs
    ensures DataItemOf(r) == oi
  {
    AMap(map[
      "coffee_id" := AInt(oi.coffee.id),
      "coffee_name" := AStr(oi.coffee.name),
      "coffee_teaser" := AStr(oi.coffee.teaser),
      "coffee_description" := AStr(oi.coffee.description),
      "coffee_price" := AInt(oi.coffee.price),
      "coffee_image" := AStr(oi.coffee.image),
      "quantity" := AInt(oi.quantity)])
  }

  function FlattenedData(orderItems: seq<OrderItem>): seq<Attr> {
    seq(|orderItems|, k requires 0 <= k < |orderItems| => FlattenItemData(orderItems[k]))
  }

  /** flattenOrderItemsData: nil gives the empty list; otherwise one block per item, in order. */
  method FlattenOrderItemsData(orderItems: Option<seq<OrderItem>>) returns (r: seq<Attr>)
    ensures orderItems.None? ==> r == []
    ensures orderItems.Some? ==> r == FlattenedData(orderItems.value)
  {
    if orderItems.None? {
      return [];
    }
    var items := orderItems.value;
    var ois := new Attr[|items|];
    for i := 0 to |items|
      invariant forall j :: 0 <= j < i ==> ois[j] == FlattenItemData(items[j])
    {
      var oi: map<string, Attr> := map[];
      oi := oi["coffee_id" := AInt(items[i].coffee.id)];
      oi := oi["coffee_name" := AStr(items[i].coffee.name)];
      oi := oi["coffee_teaser" := AStr(items[i].coffee.teaser)];
      oi := oi["coffee_description" := AStr(items[i].coffee.description)];
      oi := oi["coffee_price" := AInt(items[i].coffee.price)];
      oi := oi["coffee_image" := AStr(items[i].coffee.image)];
      oi := oi["quantity" := AInt(items[i].quantity)];
      ois[i] := AMap(oi);
    }
    return ois[..];
  }

  /** The flattened items keep length and order, conform to the schema and lose nothing. */
  lemma FlattenedDataConforms(orderItems: seq<OrderItem>)
    ensures |FlattenedData(orderItems)| == |orderItems|
    ensures DataItemsConform(FlattenedData(orderItems))
    ensures forall k :: 0 <= k < |orderItems| ==> DataItemOf(FlattenedData(orderItems)[k]) == orderItems[k]
  {
  }

  /**
   * For the same order items, the data source's coffee_id and quantity agree
   * with the resource's coffee[0].id and quantity, element by element.
   */
  lemma AgreesWithResource(orderItems: seq<OrderItem>, k: nat)
    requires k < |orderItems|
    ensures var data := FlattenedData(orderItems)[k].fields;
      var res := OrderResource.Flattened(orderItems)[k].fields;
      && data["coffee_id"] == res["coffee"].elems[0].fields["id"]
      && data["quantity"] == res["quantity"]
  {
  }

  // ---------------------------------------------------------------------
  // The data source's state and its read handler

  /** schema.ResourceData for a hashicups_order data source. */
  class DataSourceData {
    /** The required integer "id" attribute naming the order. */
    var orderId: int
    var id: string
    var items: seq<Attr>

    /** d.Set("items", v): refused, leaving the state as it was, when v does not fit the schema. */
    method SetItems(v: seq<Attr>) returns (err: Option<Err>)
      modifies this`items
      ensures err.None? <==> DataItemsConform(v)
      ensures items == if err.None? then v else old(items)
    {
      if DataItemsConform(v) {
        items := v;
        err := None;
      } else {
        err := Some(Err("items: value does not match the schema"));
      }
    }
  }

  /**
   * dataSourceOrderRead: look the order up by the decimal rendering of the
   * id attribute; only when both the lookup and setting items succeed is the
   * data source's id set, to that same string.
   */
  method Read(d: DataSourceData, c: Client) returns (diags: seq<Diagnostic>)
    modifies d`id, d`items, c`history
    ensures c.history == old(c.history) + [Call.GetOrder(Itoa(d.orderId))]
    ensures match c.getOrder(old(c.history), Itoa(d.orderId))
      case Failure(e) =>
        && diags == FromErr(e)
        && d.id == old(d.id) && d.items == old(d.items)
      case Success(order) =>
        && diags == []
        && d.items == FlattenedData(order.items)
        && d.id == Itoa(d.orderId)
        && ParseInt(d.id) == Some(d.orderId)
  {
    var orderId := Itoa(d.orderId);
    var fetched := c.GetOrder(orderId);
    match fetched {
      case Failure(e) =>
        return FromErr(e);
      case Success(order) =>
        var orderItems := FlattenOrderItemsData(Some(order.items));
        FlattenedDataConforms(order.items);
        var err := d.SetItems(orderItems);
        match err {
          case Some(e) =>
            return FromErr(e);
          case None =>
            d.id := orderId;
            ParseItoa(d.orderId);
            return [];
        }
    }
  }
}

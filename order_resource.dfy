/**
 * The hashicups_order resource: the conversion between Terraform's nested
 * "items" attribute and the client's order items, and the Create, Read,
 * Update and Delete handlers that keep the resource's id and state in step
 * with the remote order.
 */
module OrderResource {
  import opened Wrappers
  import opened Attributes
  import opened Strconv
  import opened HashiCupsClient
  import opened Diagnostics

  // ---------------------------------------------------------------------
  // The resource schema: items is a list of blocks holding one coffee block
  // (MaxItems 1, Required) and a quantity; in the coffee block only id is
  // Required, the other attributes are Computed.

  const CoffeeAttrs: set<string> := {"id", "name", "teaser", "description", "price", "image"}
  const ItemAttrs: set<string> := {"coffee", "quantity"}

  predicate CoffeeConforms(a: Attr) {
    && a.AMap?
    && a.fields.Keys <= CoffeeAttrs
    && HasInt(a.fields, "id")
    && OptStr(a.fields, "name")
    && OptStr(a.fields, "teaser")
    && OptStr(a.fields, "description")
    && OptInt(a.fields, "price")
    && OptStr(a.fields, "image")
  }

  predicate ItemConforms(a: Attr) {
    && a.AMap?
    && a.fields.Keys == ItemAttrs
    && a.fields["coffee"].AList?
    && |a.fields["coffee"].elems| == 1
    && CoffeeConforms(a.fields["coffee"].elems[0])
    && a.fields["quantity"].AInt?
  }

  predicate ItemsConform(items: seq<Attr>) {
    forall k :: 0 <= k < |items| ==> ItemConforms(items[k])
  }

  /** The coffee a conforming block denotes; an absent computed attribute reads as its zero value. */
  function CoffeeOf(a: Attr): Coffee
    requires CoffeeConforms(a)
  {
    var f := a.fields;
    Coffee(f["id"].i, StrAt(f, "name"), StrAt(f, "teaser"), StrAt(f, "description"),
           IntAt(f, "price"), StrAt(f, "image"))
  }

  /** The order item a conforming item block denotes. */
  function ItemOf(a: Attr): OrderItem
    requires ItemConforms(a)
  {
    OrderItem(CoffeeOf(a.fields["coffee"].elems[0]), a.fields["quantity"].i)
  }

  // ---------------------------------------------------------------------
  // constructOrderItems: attributes -> client order items

  /** The run-time panic a failed type assertion or index raises. */
  datatype Panic =
    | ItemNotMap        // item.(map[string]interface{})
    | CoffeeNotList     // i["coffee"].([]interface{}), also when the key is absent
    | CoffeeListEmpty   // [0] on an empty coffee list
    | CoffeeNotMap      // co.(map[string]interface{})
    | IdNotInt          // coffee["id"].(int)
    | QuantityNotInt    // i["quantity"].(int)

  /** One loop iteration of constructOrderItems: only the coffee id and the quantity are read. */
  function DecodeItem(item: Attr): (r: Result<OrderItem, Panic>)
    ensures ItemConforms(item) ==> r == Success(Project(ItemOf(item)))
    ensures r.Success? ==> r.value.coffee == ZeroCoffee.(id := r.value.coffee.id)
    ensures !item.AMap? <==> r == Failure(ItemNotMap)
    ensures r.Success? <==>
      && item.AMap? && "coffee" in item.fields && item.fields["coffee"].AList?
      && |item.fields["coffee"].elems| >= 1
      && item.fields["coffee"].elems[0].AMap?
      && HasInt(item.fields["coffee"].elems[0].fields, "id")
      && HasInt(item.fields, "quantity")
  {
    if !item.AMap? then Failure(ItemNotMap)
    else if !("coffee" in item.fields && item.fields["coffee"].AList?) then Failure(CoffeeNotList)
    else if |item.fields["coffee"].elems| == 0 then Failure(CoffeeListEmpty)
    else
      var co := item.fields["coffee"].elems[0];
      if !co.AMap? then Failure(CoffeeNotMap)
      else if !HasInt(co.fields, "id") then Failure(IdNotInt)
      else if !HasInt(item.fields, "quantity") then Failure(QuantityNotInt)
      else Success(OrderItem(ZeroCoffee.(id := co.fields["id"].i), item.fields["quantity"].i))
  }

  /** What constructOrderItems computes: the items decoded in order, or the first item's panic. */
  function Constructed(items: seq<Attr>): Result<seq<OrderItem>, Panic> {
    if items == [] then Success([])
    else match Constructed(items[..|items| - 1])
      case Failure(p) => Failure(p)
      case Success(init) =>
        match DecodeItem(items[|items| - 1])
        case Failure(p) => Failure(p)
        case Success(oi) => Success(init + [oi])
  }

  method ConstructOrderItems(items: seq<Attr>) returns (r: Result<seq<OrderItem>, Panic>)
    ensures r == Constructed(items)
  {
    var ois: seq<OrderItem> := [];
    for n := 0 to |items|
      invariant Constructed(items[..n]) == Success(ois)
    {
      assert items[..n + 1][..n] == items[..n];
      match DecodeItem(items[n]) {
        case Failure(p) =>
          ConstructedFailurePersists(items, n + 1);
          return Failure(p);
        case Success(oi) =>
          ois := ois + [oi];
      }
    }
    assert items[..|items|] == items;
    return Success(ois);
  }

  /** Once a prefix has panicked, the whole list panics the same way. */
  lemma {:induction false} ConstructedFailurePersists(items: seq<Attr>, n: nat)
    requires n <= |items| && Constructed(items[..n]).Failure?
    ensures Constructed(items) == Constructed(items[..n])
    decreases |items|
  {
    if n < |items| {
      var init := items[..|items| - 1];
      assert init[..n] == items[..n];
      ConstructedFailurePersists(init, n);
    } else {
      assert items[..n] == items;
    }
  }

  /** The decode succeeds exactly when every item decodes; then it keeps length and order. */
  lemma {:induction false} ConstructedElementwise(items: seq<Attr>)
    ensures Constructed(items).Success? <==> forall k :: 0 <= k < |items| ==> DecodeItem(items[k]).Success?
    ensures Constructed(items).Success? ==>
      && |Constructed(items).value| == |items|
      && forall k :: 0 <= k < |items| ==> DecodeItem(items[k]) == Success(Constructed(items).value[k])
  {
    if items != [] {
      var init := items[..|items| - 1];
      ConstructedElementwise(init);
      assert forall k :: 0 <= k < |init| ==> init[k] == items[k];
    }
  }

  /** A panic is the one raised by the first item that does not decode. */
  lemma {:induction false} ConstructedPanicsAtFirstBadItem(items: seq<Attr>)
    requires Constructed(items).Failure?
    ensures exists k :: (0 <= k < |items|
      && DecodeItem(items[k]) == Failure(Constructed(items).error)
      && forall j :: 0 <= j < k ==> DecodeItem(items[j]).Success?)
  {
    var init := items[..|items| - 1];
    assert forall j :: 0 <= j < |init| ==> init[j] == items[j];
    if Constructed(init).Failure? {
      ConstructedPanicsAtFirstBadItem(init);
      var k :| 0 <= k < |init|
        && DecodeItem(init[k]) == Failure(Constructed(init).error)
        && forall j :: 0 <= j < k ==> DecodeItem(init[j]).Success?;
      assert DecodeItem(items[k]) == Failure(Constructed(items).error);
    } else {
      ConstructedElementwise(init);
      var k := |items| - 1;
      assert DecodeItem(items[k]) == Failure(Constructed(items).error);
    }
  }

  /**
   * Element k of the result carries the id found at items[k]["coffee"][0]["id"]
   * and the quantity found at items[k]["quantity"]; every other coffee field
   * keeps its zero value.
   */
  lemma ConstructedItemAt(items: seq<Attr>, k: nat)
    requires Constructed(items).Success? && k < |items|
    ensures |Constructed(items).value| == |items|
    ensures var item := items[k];
      && item.AMap? && "coffee" in item.fields && item.fields["coffee"].AList?
      && |item.fields["coffee"].elems| >= 1
      && var coffee := item.fields["coffee"].elems[0];
      && coffee.AMap? && HasInt(coffee.fields, "id") && HasInt(item.fields, "quantity")
      && Constructed(items).value[k].coffee == ZeroCoffee.(id := coffee.fields["id"].i)
      && Constructed(items).value[k].quantity == item.fields["quantity"].i
  {
    ConstructedElementwise(items);
  }

  /** Items that conform to the schema never make the decode panic. */
  lemma ConformingItemsConstruct(items: seq<Attr>)
    requires ItemsConform(items)
    ensures Constructed(items).Success? && |Constructed(items).value| == |items|
    ensures forall k :: 0 <= k < |items| ==>
      Constructed(items).value[k] == Project(ItemOf(items[k]))
  {
    ConstructedElementwise(items);
  }

  // ---------------------------------------------------------------------
  // flattenOrderItems / flattenCoffee: client order items -> attributes

  /** flattenCoffee: a one-element list holding the coffee's six attributes. */
  function FlattenCoffee(coffee: Coffee): (r: seq<Attr>)
    ensures |r| == 1 && CoffeeConforms(r[0])
    ensures r[0].fields.Keys == CoffeeAttrs
    ensures CoffeeOf(r[0]) == coffee
  {
    [AMap(map[
      "id" := AInt(coffee.id),
      "name" := AStr(coffee.name),
      "teaser" := AStr(coffee.teaser),
      "description" := AStr(coffee.description),
      "price" := AInt(coffee.price),
      "image" := AStr(coffee.image)])]
  }

  /** One element of flattenOrderItems' result. */
  function FlattenItem(oi: OrderItem): (r: Attr)
    ensures ItemConforms(r)
    ensures ItemOf(r) == oi
  {
    AMap(map["coffee" := AList(FlattenCoffee(oi.coffee)), "quantity" := AInt(oi.quantity)])
  }

  function Flattened(orderItems: seq<OrderItem>): seq<Attr> {
    seq(|orderItems|, k requires 0 <= k < |orderItems| => FlattenItem(orderItems[k]))
  }

  /** flattenOrderItems: nil gives the empty list; otherwise one block per item, in order. */
  method FlattenOrderItems(orderItems: Option<seq<OrderItem>>) returns (r: seq<Attr>)
    ensures orderItems.None? ==> r == []
    ensures orderItems.Some? ==> r == Flattened(orderItems.value)
  {
    if orderItems.None? {
      return [];
    }
    var items := orderItems.value;
    var ois := new Attr[|items|];
    for i := 0 to |items|
      invariant forall j :: 0 <= j < i ==> ois[j] == FlattenItem(items[j])
    {
      var oi: map<string, Attr> := map[];
      oi := oi["coffee" := AList(FlattenCoffee(items[i].coffee))];
      oi := oi["quantity" := AInt(items[i].quantity)];
      ois[i] := AMap(oi);
    }
    return ois[..];
  }

  /** The flattened items keep length and order, conform to the schema and lose nothing. */
  lemma FlattenedConforms(orderItems: seq<OrderItem>)
    ensures |Flattened(orderItems)| == |orderItems|
    ensures ItemsConform(Flattened(orderItems))
    ensures forall k :: 0 <= k < |orderItems| ==> ItemOf(Flattened(orderItems)[k]) == orderItems[k]
  {
  }

  /** An order item as the decode sees it: its coffee id and quantity, nothing else. */
  function Project(oi: OrderItem): OrderItem {
    OrderItem(ZeroCoffee.(id := oi.coffee.id), oi.quantity)
  }

  function Projected(orderItems: seq<OrderItem>): seq<OrderItem> {
    seq(|orderItems|, k requires 0 <= k < |orderItems| => Project(orderItems[k]))
  }

  /** Decoding what was flattened gives back every item's coffee id and quantity, in order. */
  lemma {:induction false} RoundTrip(orderItems: seq<OrderItem>)
    ensures Constructed(Flattened(orderItems)) == Success(Projected(orderItems))
    decreases |orderItems|
  {
    if orderItems == [] {
      assert Flattened(orderItems) == [];
      assert Projected(orderItems) == [];
    } else {
      var n := |orderItems|;
      var init := orderItems[..n - 1];
      var flat := Flattened(orderItems);
      assert |flat| == n;
      assert flat[..n - 1] == Flattened(init);
      RoundTrip(init);
      assert DecodeItem(flat[n - 1]) == Success(Project(orderItems[n - 1]));
      assert Projected(init) + [Project(orderItems[n - 1])] == Projected(orderItems);
    }
  }

  // ---------------------------------------------------------------------
  // The resource's state and its lifecycle handlers

  /** schema.ResourceData for a hashicups_order resource. */
  class ResourceData {
    var id: string
    var items: seq<Attr>
    var lastUpdated: string
    /** d.HasChange("items"): the planned items differ from the prior state. */
    var hasChangeItems: bool

    /** d.Set("items", v): refused, leaving the state as it was, when v does not fit the schema. */
    method SetItems(v: seq<Attr>) returns (err: Option<Err>)
      modifies this`items
      ensures err.None? <==> ItemsConform(v)
      ensures items == if err.None? then v else old(items)
    {
      if ItemsConform(v) {
        items := v;
        err := None;
      } else {
        err := Some(Err("items: value does not match the schema"));
      }
    }
  }

  /** The items a Read leaves in state: the order's items when the lookup succeeds, the old ones otherwise. */
  function Refreshed(fetched: Result<Order, Err>, before: seq<Attr>): seq<Attr> {
    match fetched
    case Failure(_) => before
    case Success(order) => Flattened(order.items)
  }

  /** The diagnostics a Read returns: the lookup's error, or none. */
  function ReadDiags(fetched: Result<Order, Err>): seq<Diagnostic> {
    match fetched
    case Failure(e) => FromErr(e)
    case Success(_) => []
  }

  /** resourceOrderRead: fetch the order named by the id and overwrite items with it. */
  method Read(d: ResourceData, c: Client) returns (diags: seq<Diagnostic>)
    modifies d`items, c`history
    ensures c.history == old(c.history) + [Call.GetOrder(d.id)]
    ensures d.items == Refreshed(c.getOrder(old(c.history), d.id), old(d.items))
    ensures diags == ReadDiags(c.getOrder(old(c.history), d.id))
  {
    var orderId := d.id;
    var fetched := c.GetOrder(orderId);
    match fetched {
      case Failure(e) =>
        return FromErr(e);
      case Success(order) =>
        var orderItems := FlattenOrderItems(Some(order.items));
        FlattenedConforms(order.items);
        var err := d.SetItems(orderItems);
        match err {
          case Some(e) => return FromErr(e);
          case None => return [];
        }
    }
  }

  /**
   * resourceOrderCreate: send the decoded items to CreateOrder; on failure
   * nothing changes; on success the id becomes the decimal order id and a
   * Read refreshes the items, whose own diagnostics are dropped.
   */
  method Create(d: ResourceData, c: Client) returns (diags: seq<Diagnostic>)
    requires Constructed(d.items).Success?
    modifies d`id, d`items, c`history
    ensures var ois := Constructed(old(d.items)).value;
      var sent := old(c.history) + [Call.CreateOrder(ois)];
      match c.createOrder(old(c.history), ois)
      case Failure(e) =>
        && diags == FromErr(e)
        && d.id == old(d.id) && d.items == old(d.items)
        && c.history == sent
      case Success(order) =>
        && d.id == Itoa(order.id)
        && ParseInt(d.id) == Some(order.id)
        && c.history == sent + [Call.GetOrder(d.id)]
        && d.items == Refreshed(c.getOrder(sent, d.id), old(d.items))
        && diags == []
  {
    var ois := ConstructOrderItems(d.items);
    var created := c.CreateOrder(ois.value);
    match created {
      case Failure(e) =>
        return FromErr(e);
      case Success(order) =>
        d.id := Itoa(order.id);
        ParseItoa(order.id);
        var _ := Read(d, c);
        return [];
    }
  }

  /**
   * resourceOrderUpdate: only when items changed, send them to UpdateOrder
   * and, once that succeeded, stamp last_updated; a failed update returns
   * its error without reading. Every other path ends in a Read.
   */
  method Update(d: ResourceData, c: Client, now: string) returns (diags: seq<Diagnostic>)
    requires d.hasChangeItems ==> Constructed(d.items).Success?
    modifies d`items, d`lastUpdated, c`history
    ensures !d.hasChangeItems ==>
      && d.lastUpdated == old(d.lastUpdated)
      && c.history == old(c.history) + [Call.GetOrder(d.id)]
      && d.items == Refreshed(c.getOrder(old(c.history), d.id), old(d.items))
      && diags == ReadDiags(c.getOrder(old(c.history), d.id))
    ensures d.hasChangeItems ==>
      var ois := Constructed(old(d.items)).value;
      var sent := old(c.history) + [Call.UpdateOrder(d.id, ois)];
      match c.updateOrder(old(c.history), d.id, ois)
      case Failure(e) =>
        && diags == FromErr(e)
        && d.items == old(d.items) && d.lastUpdated == old(d.lastUpdated)
        && c.history == sent
      case Success(_) =>
        && d.lastUpdated == now
        && c.history == sent + [Call.GetOrder(d.id)]
        && d.items == Refreshed(c.getOrder(sent, d.id), old(d.items))
        && diags == ReadDiags(c.getOrder(sent, d.id))
  {
    var orderId := d.id;
    if d.hasChangeItems {
      var ois := ConstructOrderItems(d.items);
      var updated := c.UpdateOrder(orderId, ois.value);
      if updated.Failure? {
        return FromErr(updated.error);
      }
      d.lastUpdated := now;
    }
    diags := Read(d, c);
  }

  /** resourceOrderDelete: the id is cleared only when DeleteOrder succeeds. */
  method Delete(d: ResourceData, c: Client) returns (diags: seq<Diagnostic>)
    modifies d`id, c`history
    ensures c.history == old(c.history) + [Call.DeleteOrder(old(d.id))]
    ensures match c.deleteOrder(old(c.history), old(d.id))
      case Some(e) => diags == FromErr(e) && d.id == old(d.id)
      case None => diags == [] && d.id == ""
  {
    var orderId := d.id;
    var err := c.DeleteOrder(orderId);
    if err.Some? {
      return FromErr(err.value);
    }
    d.id := "";
    return [];
  }
}

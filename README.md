# HashiCups order provider — Dafny model

This project models the core of a Terraform provider for the HashiCups
coffee-shop API: the conversion between Terraform's untyped nested
attribute values and the API client's typed order items, the lifecycle of
the `hashicups_order` resource (Create, Read, Update, Delete) and of the
`hashicups_order` data source around an abstract API client, and the
provider's credential handling when it builds that client.

Modules, one per file:

- `Wrappers` (wrappers.dfy): `Option` (a Go pointer that may be nil), `Result` (a Go `(value, error)` pair) and `Err` (a Go error value, shared by the client and the SDK).
- `Attributes` (attributes.dfy): `Attr`, Go's `interface{}` as the SDK fills it — an int, a string, a list or a string-keyed map. A key missing from a map stands for nil.
- `Strconv` (strconv.dfy): `Itoa`, the decimal rendering of an order id, with the parse that inverts it.
- `HashiCupsClient` (client.dfy): `Coffee`, `OrderItem`, `Order`, and the `Client` class. The remote service is an oracle. Its answer to each request is any fixed function of the requests it received before and the request's arguments. `history` records every request, so contracts can say which calls were made.
- `Diagnostics` (diagnostics.dfy): `Diagnostic` with its severity, summary and detail; `FromErr`.
- `OrderResource` (order_resource.dfy): `constructOrderItems`, `flattenOrderItems`, `flattenCoffee`, the resource schema as predicates, `schema.ResourceData` as the class `ResourceData`, and the four handlers.
- `OrderDataSource` (order_data_source.dfy): `flattenOrderItemsData`, its schema, and the data source's read handler.
- `Provider` (provider.dfy): `providerConfigure`.

Modelling choices:

- A failed Go type assertion or an out-of-range index panics. `constructOrderItems` returns `Failure(panic)` for these, naming which assertion failed; the first malformed item decides the panic.
- The handlers that decode items require that the decode does not panic. `ConformingItemsConstruct` shows that every items value matching the resource schema meets this.
- `d.Set("items", v)` is modelled as the SDK's schema check: it is refused, and state is left as it was, exactly when `v` does not fit the schema. `FlattenedConforms` and `FlattenedDataConforms` show that flattened items always fit, so that error path never fires.
- `d.HasChange("items")` is the field `hasChangeItems`, decided by the SDK.
- The clock read for `last_updated` is the parameter `now`.

## Model

| member | source | states |
|---|---|---|
| `OrderResource.DecodeItem` | hashicups/resource_order.go:194-205 | one loop iteration of the decode: an item that fits the schema decodes to its coffee id and quantity; a decoded item sets only the coffee id, leaving every other coffee field at its zero value; a non-map item panics at the first assertion; an item decodes exactly when every assertion of the loop body holds: a map whose "coffee" is a non-empty list headed by a map with an integer "id", and whose "quantity" is an integer (extra keys and further coffee elements are ignored). In the body, `coffee["id"].(int)` is checked before `i["quantity"].(int)`. The Go specification does not fix the order of those last two assertions in the composite literal. The model follows gc's left-to-right order, which matters only for which panic is reported when both fail |
| `OrderResource.ConstructOrderItems` | hashicups/resource_order.go:190-211 | the loop's result is exactly `Constructed(items)`: the decoded items in input order, or the first malformed item's panic |
| `OrderResource.ConstructedElementwise` | hashicups/resource_order.go:193-208 | the decode succeeds iff every item decodes; on success the result has the input's length and element k is item k's decode |
| `OrderResource.ConstructedPanicsAtFirstBadItem` | hashicups/resource_order.go:193-205 | a failing decode reports the panic of the first item that does not decode, all items before it decoding cleanly |
| `OrderResource.ConstructedFailurePersists` | hashicups/resource_order.go:193-208 | once a prefix of the items panics, the whole list panics the same way (the loop stops at the first panic) |
| `OrderResource.ConstructedItemAt` | hashicups/resource_order.go:197-205 | element k carries `items[k]["coffee"][0]["id"]` as its coffee id and `items[k]["quantity"]` as its quantity; every other coffee field is the zero value |
| `OrderResource.ConformingItemsConstruct` | hashicups/resource_order.go:31-78 | items that fit the resource schema never panic the decode, and each decodes to its coffee id and quantity |
| `OrderResource.FlattenCoffee` | hashicups/resource_order.go:236-246 | a one-element list whose map has exactly the keys id, name, teaser, description, price and image, fits the coffee block's schema and reads back as the same coffee |
| `OrderResource.FlattenItem` | hashicups/resource_order.go:225-229 | an item block with exactly the keys coffee and quantity, fitting the schema and reading back as the same order item |
| `OrderResource.FlattenOrderItems` | hashicups/resource_order.go:214-233 | nil gives the empty list; otherwise the loop's result is `Flattened(items)`, one block per item in order |
| `OrderResource.FlattenedConforms` | hashicups/resource_order.go:222-232 | flattening keeps length and order, fits the items schema, and element k reads back as item k |
| `OrderResource.RoundTrip` | hashicups/resource_order.go:190-246 | decoding flattened items succeeds and gives every item's coffee id and quantity, in order, all other coffee fields zero |
| `OrderResource.ResourceData.SetItems` | hashicups/resource_order.go:133 | `d.Set("items", v)` succeeds iff `v` fits the schema; it stores `v` on success and changes nothing on failure |
| `OrderResource.Read` | hashicups/resource_order.go:119-138 | one GetOrder call with the current id; on success items become the flattened order items with no diagnostics; on failure items are unchanged and the error is returned; the id never changes |
| `OrderResource.Create` | hashicups/resource_order.go:92-116 | one CreateOrder call with the decoded items. If it fails, id and items are unchanged and its error is returned. If it succeeds, the id becomes the decimal order id, which parses back to that id; a GetOrder on it follows and refreshes items; no diagnostics are returned even when that read fails |
| `OrderResource.Update` | hashicups/resource_order.go:141-162 | UpdateOrder is called once, with the current id and the decoded items, exactly when items changed. Its failure returns the error with no read and no state change. `last_updated` is set to `now` only after it succeeds. Every other path ends in a Read of the same id |
| `OrderResource.Delete` | hashicups/resource_order.go:168-187 | one DeleteOrder call with the current id; the id becomes empty only on success; on failure the error is returned and the id is kept; items and last_updated are never touched |
| `OrderDataSource.FlattenItemData` | hashicups/data_source_order.go:96-104 | a block with exactly the seven keys coffee_id, coffee_name, coffee_teaser, coffee_description, coffee_price, coffee_image and quantity, fitting the schema and reading back as the same order item |
| `OrderDataSource.FlattenOrderItemsData` | hashicups/data_source_order.go:87-110 | nil gives the empty list; otherwise the loop's result is `FlattenedData(items)`, one block per item in order |
| `OrderDataSource.FlattenedDataConforms` | hashicups/data_source_order.go:92-109 | flattening keeps length and order, fits the data source schema, and element k reads back as item k |
| `OrderDataSource.AgreesWithResource` | hashicups/data_source_order.go:98-104 | element k's coffee_id and quantity equal element k's coffee[0].id and quantity in the resource's flattening of the same items (hashicups/resource_order.go:227-228) |
| `OrderDataSource.DataSourceData.SetItems` | hashicups/data_source_order.go:77 | `d.Set("items", v)` succeeds iff `v` fits the data source schema; it stores `v` on success and changes nothing on failure |
| `OrderDataSource.Read` | hashicups/data_source_order.go:65-84 | one GetOrder call with the decimal rendering of the id attribute. If it fails, the id and items are unchanged and the error is returned. Otherwise items become the flattened order items and the id becomes that same string, which parses back to the attribute |
| `Strconv.Digits` | hashicups/resource_order.go:110 | the decimal digits of a natural number: at least one, all in 0-9, no leading zero |
| `Strconv.Itoa` | hashicups/resource_order.go:110 | `strconv.Itoa`, which makes the id the resource stores (also hashicups/data_source_order.go:69 and :81): a leading '-' exactly for negative numbers, and after it (or from the start, for n >= 0) at least one decimal digit with no leading zero |
| `Strconv.DigitsValueOfDigits` | hashicups/resource_order.go:110 | the digits of n denote n |
| `Strconv.ParseItoa` | hashicups/data_source_order.go:69 | parsing `strconv.Itoa(n)` gives back n, for every integer n |
| `Strconv.ItoaInjective` | hashicups/resource_order.go:110 | distinct order ids give distinct resource ids |
| `HashiCupsClient.Client.GetOrder` | hashicups/resource_order.go:127 | the answer is the service's answer to GetOrder for this id after the requests so far, and the request is recorded |
| `HashiCupsClient.Client.CreateOrder` | hashicups/resource_order.go:104 | the answer is the service's answer to CreateOrder for these items after the requests so far, and the request is recorded |
| `HashiCupsClient.Client.UpdateOrder` | hashicups/resource_order.go:152 | the answer is the service's answer to UpdateOrder for this id and these items after the requests so far, and the request is recorded |
| `HashiCupsClient.Client.DeleteOrder` | hashicups/resource_order.go:175 | the error, if any, is the service's answer to DeleteOrder for this id after the requests so far, and the request is recorded |
| `Provider.Credential` | hashicups/provider.go:59-67 | the empty string becomes absent and only the empty string does; any other credential passes through unchanged |
| `Provider.Configure` | hashicups/provider.go:44-83 | the constructor is called with no host and with username and password after the empty-means-absent rule. On its failure: no client and exactly one diagnostic, of severity Error, summary "Unable to create HashiCups client", detail "Unable to auth user for authenticated HashiCups client". On success: that client and no diagnostics |

## Left out

- OrderResource.Create: in Go, an items value that the decode cannot read makes the type assertions panic and crashes the plugin. The model requires the decode to succeed instead. `ConformingItemsConstruct` shows this holds for every items value that fits the resource schema, which is what the SDK hands over.
- OrderResource.Update: the same requirement applies when items changed, for the same reason as in Create.

- `Provider()`, `resourceOrder()` and `dataSourceOrder()` (schema declarations, hashicups/provider.go:12-41, hashicups/resource_order.go:14-88, hashicups/data_source_order.go:13-62): declarative SDK configuration. Their shapes appear only as the schema predicates `ItemConforms`, `CoffeeConforms` and `DataItemConforms`.
- The `hashicups_coffees` data source: its file is not part of this model.
- `main.go`: `plugin.Serve` is out-of-process RPC plumbing.
- Import (`schema.ImportStatePassthroughContext`): an SDK function with no logic in this repository.
- The environment-variable fallback for username and password (`schema.EnvDefaultFunc`): operating-system and SDK behaviour. `Configure` takes the already-resolved strings.
- `time.Now().Format(time.RFC850)`: the clock is the parameter `now`; its format is not modelled.
- The client's HTTP, authentication and JSON handling, and `hashicups.NewClient`: abstract functions passed in. The client's types are modelled with the six coffee fields the provider reads and writes. Price is an integer, as the schema declares it.
- `context.Context`, and the rendering of diagnostics beyond severity, summary and detail. `diag.FromErr` gives one error diagnostic that carries the error's message.
- Go's 64-bit `int`: integers are unbounded. No arithmetic on them happens here, so no wrap-around can occur.
- A nil value inside an attribute list cannot be written as an `Attr`. A missing map key stands for nil, which covers every nil the decode can meet through a map lookup.
- The `m.(*hc.Client)` assertion on the handlers' meta argument: the handlers take a `Client` directly.

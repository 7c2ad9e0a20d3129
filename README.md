# IBM Event Notifications Firefox destination: cost rule

This project models how infracost prices an IBM Event Notifications Firefox
push destination (`internal/resources/ibm/en_subscription_firefox.go`). A
resource record has an address, a region, a plan and an optional count of
outbound push messages. From it the rule builds one cost component: a name,
a unit, a monthly quantity (possibly absent), a product filter and a price
filter for the price catalog, and possibly a custom price that bypasses the
catalog. `BuildResource` wraps that component into a resource named by the
address, together with the one-key usage schema.

The rule branches on the plan string, matched exactly and case-sensitively:

- `"lite"`: the quantity is the usage capped at 1,000 messages and the price is 0.
  The product filter has no plan attribute and there is no price filter.
- `"standard"`: the usage passes through unchanged, and absent usage stays absent.
  The product filter carries `planName = standard` and the price filter selects
  the unit `OUTBOUND_DIGITAL_MESSAGES_PUSH`.
- any other plan: a zero-priced placeholder named `Plan <plan> not found`, with
  quantity 1 and the plan as attribute filter, whatever the usage.

Files:

- `schema.dfy` (module `Schema`): the records of infracost's `schema` package
  that the rule builds: `CostComponent`, `ProductFilter`, `AttributeFilter`,
  `PriceFilter`, `UsageItem` and `Resource`, plus `Option` and `int64`.
- `en_subscription_firefox.dfy` (module `EnSubscriptionFirefox`): the resource
  record, the cost rule, `BuildResource` and the usage schema. It also holds
  the lemmas about them.

The lite branch dereferences the usage pointer without a nil check, so in Go
a lite record without usage panics. The model makes this an explicit result,
`Outcome.NilDereference`: under `"lite"`, absent usage is never read as 0.
The unknown-plan placeholder never sets `Unit`
(`en_subscription_firefox.go:96-108`), so the model gives it Go's zero
value `""`.

The component's name identifies the plan it was priced under: `PlanFromName`
reads it back, and `ComponentNameIdentifiesPlan` proves the round trip for
every record the rule accepts. It follows that distinct unknown plans get
distinct placeholders, and that different plans never produce the same
component.

## Model

| member | source | states |
|---|---|---|
| EnSubscriptionFirefox.UsageSchema | internal/resources/ibm/en_subscription_firefox.go:25-27 | the usage schema has exactly one entry: key `event-notifications_OUTBOUND_DIGITAL_MESSAGES_PUSH`, default 0, type Int64 |
| EnSubscriptionFirefox.Cap | internal/resources/ibm/en_subscription_firefox.go:57 | the lite quantity is at most 1,000 and at most the usage, and it is either the usage or 1,000 (that is, min(usage, 1000)) |
| EnSubscriptionFirefox.CapIsMin | internal/resources/ibm/en_subscription_firefox.go:57-63 | usage up to 1,000 is billed in full; usage of 1,000 or more is billed as exactly 1,000 |
| EnSubscriptionFirefox.CapIdempotent | internal/resources/ibm/en_subscription_firefox.go:57 | capping a capped quantity again leaves it unchanged |
| EnSubscriptionFirefox.PassThrough | internal/resources/ibm/en_subscription_firefox.go:73-76 | the standard quantity is present exactly when usage is present, and then equals it; absent is never turned into 0 |
| EnSubscriptionFirefox.NotFoundName | internal/resources/ibm/en_subscription_firefox.go:97 | the placeholder name starts with `Plan `, ends with ` not found` and holds the plan in between |
| EnSubscriptionFirefox.OutboundPushMessagesCostComponent | internal/resources/ibm/en_subscription_firefox.go:50-113 | the only failure is the nil dereference of `"lite"` without usage; every component has unit multiplier 1, vendor `ibm`, service `event-notifications` and the record's region; exactly one of custom price and price filter is set; the price filter is set exactly for `"standard"`; every custom price is 0; only `"lite"` has no attribute filter; the lite quantity is the capped usage; the standard quantity is absent exactly when usage is absent |
| EnSubscriptionFirefox.BuildResource | internal/resources/ibm/en_subscription_firefox.go:38-48 | the resource fails exactly when the component does; otherwise it is named by the address, carries the usage schema, and has exactly one cost component, the push-message component |
| EnSubscriptionFirefox.LiteComponent | internal/resources/ibm/en_subscription_firefox.go:55-70 | the whole lite component: the lite name, unit `Messages`, quantity min(usage, 1000), filter with no attributes, no price filter, custom price 0 |
| EnSubscriptionFirefox.StandardComponent | internal/resources/ibm/en_subscription_firefox.go:71-94 | the whole standard component: the standard name, unit `Messages`, quantity the usage or absent, one attribute `planName = standard`, price-filter unit `OUTBOUND_DIGITAL_MESSAGES_PUSH`, no custom price |
| EnSubscriptionFirefox.UnknownPlanComponent | internal/resources/ibm/en_subscription_firefox.go:95-110 | the whole placeholder for any other plan: name `Plan <plan> not found`, no unit, quantity 1, attribute `planName = <plan>`, no price filter, custom price 0 |
| EnSubscriptionFirefox.CapitalisedLiteIsUnknown | internal/resources/ibm/en_subscription_firefox.go:55-110 | matching is case-sensitive: `"Lite"` gets the placeholder and does not panic without usage |
| EnSubscriptionFirefox.ComponentIgnoresAddressAndName | internal/resources/ibm/en_subscription_firefox.go:50-113 | the component depends only on plan, region and usage; the same inputs always give the same component |
| EnSubscriptionFirefox.UnknownPlanIgnoresUsage | internal/resources/ibm/en_subscription_firefox.go:95-110 | under an unknown plan, changing the usage (to absent, too) does not change the component |
| EnSubscriptionFirefox.NotFoundNameRoundTrip | internal/resources/ibm/en_subscription_firefox.go:97 | the plan can be read back from its placeholder name |
| EnSubscriptionFirefox.NotFoundNameInjective | internal/resources/ibm/en_subscription_firefox.go:97 | distinct plans get distinct placeholder names |
| EnSubscriptionFirefox.ComponentNameIdentifiesPlan | internal/resources/ibm/en_subscription_firefox.go:52-110 | the name of every component the rule produces determines the plan it was priced under |
| EnSubscriptionFirefox.DistinctPlansDistinctComponents | internal/resources/ibm/en_subscription_firefox.go:50-113 | two records with different plans that both succeed never get the same component |
| EnSubscriptionFirefox.LiteAboveCapScenario | internal/resources/ibm/en_subscription_firefox.go:55-70 | lite with 2,500 messages in us-south is named as the lite plan with its 1,000-message maximum and is billed 1,000 messages at price 0 |
| EnSubscriptionFirefox.LiteWithoutUsagePanics | internal/resources/ibm/en_subscription_firefox.go:55-57 | lite with no usage is the nil dereference, not quantity 0 |
| EnSubscriptionFirefox.StandardScenarios | internal/resources/ibm/en_subscription_firefox.go:71-94 | standard with 2,500 messages is billed 2,500 through the catalog with `planName = standard`; standard with no usage has an absent quantity |
| EnSubscriptionFirefox.UnknownPlanScenario | internal/resources/ibm/en_subscription_firefox.go:95-110 | plan `gold` gives `Plan gold not found`, quantity 1, price 0 |

## Left out

- `PopulateUsage` (lines 31-33) binds usage through struct tags by reflection, in a package that is not part of this model. The model takes the usage as an already bound `Option<int64>`.
- `internal/providers/terraform/ibm/en_destination_firefox_test.go` only calls a golden-file harness whose fixtures are not part of this model.
- Cap: the source converts the usage to `float64`, takes `math.Min` and converts back with `decimal.NewFromFloat`. The model uses exact integer min. The two agree for every usage of at least -2^53, which covers every real message count. Below that, the float conversion can round the value, and the model does not capture that.
- Decimal amounts (`shopspring/decimal`) are whole numbers here and are modelled as `int`; `strPtr`, `decimalPtr` and the pointer fields become plain values or `Option`.
- The attribute filter's value in the source is a pointer to the record's `Plan` field. The model copies the string, so aliasing is not captured.
- `SetCustomPrice` is modelled as setting the optional `customPrice` field; its internals are in the `schema` package, which is not part of this model.
- `fmt.Sprintf` names are modelled as string concatenation.
- The record's `Name` field is carried but not used, as in the source.
- The price-catalog lookup and report rendering happen outside this file and are not modelled.

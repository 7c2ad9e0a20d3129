/** The cost rule of the IBM Event Notifications Firefox push destination:
    one cost component for outbound push messages, priced by plan. */
module EnSubscriptionFirefox {
  import opened Schema

  /** The resource record as the IaC provider builds it, after the usage
      binder has filled in the optional push-message count. */
  datatype EnSubscriptionFirefox = EnSubscriptionFirefox(
    address: string,
    region: string,
    name: string,
    plan: string,
    outboundPushMessages: Option<int64>)

  /** What evaluating the cost rule gives: a value, or the run-time panic Go
      raises when it dereferences a nil usage pointer. */
  datatype Outcome<+T> = Ok(value: T) | NilDereference

  const UsageKey: string := "event-notifications_OUTBOUND_DIGITAL_MESSAGES_PUSH"
  const LiteCap: int := 1000
  const Vendor: string := "ibm"
  const Service: string := "event-notifications"
  const MessagesUnit: string := "Messages"
  const PushPriceUnit: string := "OUTBOUND_DIGITAL_MESSAGES_PUSH"
  const ComponentName: string := "Outbound Firefox Push Messages"
  const LiteName: string := ComponentName + " (Lite plan) (Max. 1,000 per destination)"
  const StandardName: string := ComponentName + " (Standard plan)"
  const NotFoundPrefix: string := "Plan "
  const NotFoundSuffix: string := " not found"

  /** The usage schema: the single push-message key, shown as 0 by default. */
  function UsageSchema(): (s: seq<UsageItem>)
    ensures |s| == 1
    ensures s[0].key == UsageKey && s[0].defaultValue == 0 && s[0].valueType == Int64
  {
    [UsageItem(UsageKey, 0, Int64)]
  }

  /** The lite plan's free allotment: usage above the cap is not billed. */
  function Cap(usage: int64): (q: int)
    ensures q <= LiteCap && q <= usage
    ensures q == usage || q == LiteCap
  {
    if usage < LiteCap then usage else LiteCap
  }

  /** The standard plan's quantity: the usage when given, absent otherwise. */
  function PassThrough(usage: Option<int64>): (q: Option<int>)
    ensures q.Some? <==> usage.Some?
    ensures usage.Some? ==> q.value == usage.value
  {
    match usage
    case None => None
    case Some(u) => Some(u)
  }

  /** The placeholder name of a plan the rule does not know. */
  function NotFoundName(plan: string): (n: string)
    ensures |n| == |NotFoundPrefix| + |plan| + |NotFoundSuffix|
    ensures n[..|NotFoundPrefix|] == NotFoundPrefix
    ensures n[|NotFoundPrefix|..|NotFoundPrefix| + |plan|] == plan
    ensures n[|n| - |NotFoundSuffix|..] == NotFoundSuffix
  {
    NotFoundPrefix + plan + NotFoundSuffix
  }

  /** The product filter every branch uses; `attributes` is empty for lite. */
  function PushProductFilter(region: string, attributes: seq<AttributeFilter>): ProductFilter
  {
    ProductFilter(Vendor, region, Service, attributes)
  }

  /** The cost component for outbound push messages. The plan is matched
      exactly and case-sensitively against "lite" and "standard"; every other
      plan gets a zero-priced placeholder. Under "lite" the usage pointer is
      dereferenced unchecked, so absent usage panics. */
  function OutboundPushMessagesCostComponent(r: EnSubscriptionFirefox): (res: Outcome<CostComponent>)
    // The only failure is the nil dereference of the lite branch.
    ensures res.NilDereference? <==> r.plan == "lite" && r.outboundPushMessages.None?
    // Common to every branch.
    ensures res.Ok? ==> var c := res.value;
      && c.unitMultiplier == 1
      && c.productFilter.vendorName == Vendor
      && c.productFilter.service == Service
      && c.productFilter.region == r.region
    // Exactly one of a custom price and a price filter decides the price,
    // and the catalog is consulted only for the standard plan.
    ensures res.Ok? ==> (res.value.customPrice.None? <==> res.value.priceFilter.Some?)
    ensures res.Ok? ==> (res.value.priceFilter.Some? <==> r.plan == "standard")
    ensures res.Ok? && res.value.customPrice.Some? ==> res.value.customPrice.value == 0
    // Only the lite plan omits the plan attribute.
    ensures res.Ok? ==> (res.value.productFilter.attributeFilters == [] <==> r.plan == "lite")
    // Lite: the usage, capped at the free allotment.
    ensures r.plan == "lite" && res.Ok? ==>
      res.value.monthlyQuantity == Some(Cap(r.outboundPushMessages.value))
    // Standard: absent usage stays absent, never zero.
    ensures r.plan == "standard" ==>
      res.Ok? && (res.value.monthlyQuantity.None? <==> r.outboundPushMessages.None?)
  {
    if r.plan == "lite" then
      match r.outboundPushMessages
      case None => NilDereference
      case Some(u) =>
        Ok(CostComponent(
          name := LiteName,
          unit := MessagesUnit,
          unitMultiplier := 1,
          monthlyQuantity := Some(Cap(u)),
          productFilter := PushProductFilter(r.region, []),
          priceFilter := None,
          customPrice := Some(0)))
    else if r.plan == "standard" then
      Ok(CostComponent(
        name := StandardName,
        unit := MessagesUnit,
        unitMultiplier := 1,
        monthlyQuantity := PassThrough(r.outboundPushMessages),
        productFilter := PushProductFilter(r.region, [AttributeFilter("planName", r.plan)]),
        priceFilter := Some(PriceFilter(PushPriceUnit)),
        customPrice := None))
    else
      Ok(CostComponent(
        name := NotFoundName(r.plan),
        unit := "",
        unitMultiplier := 1,
        monthlyQuantity := Some(1),
        productFilter := PushProductFilter(r.region, [AttributeFilter("planName", r.plan)]),
        priceFilter := None,
        customPrice := Some(0)))
  }

  /** The resource: named by the address, with the usage schema and the one
      push-message cost component. */
  function BuildResource(r: EnSubscriptionFirefox): (res: Outcome<Resource>)
    ensures res.NilDereference? <==> OutboundPushMessagesCostComponent(r).NilDereference?
    ensures res.Ok? ==>
      && res.value.name == r.address
      && res.value.usageSchema == UsageSchema()
      && res.value.costComponents == [OutboundPushMessagesCostComponent(r).value]
  {
    match OutboundPushMessagesCostComponent(r)
    case NilDereference => NilDereference
    case Ok(c) => Ok(Resource(r.address, UsageSchema(), [c]))
  }

  /** Reads the plan back from a component name: the two fixed names, or the
      text between "Plan " and " not found". */
  function PlanFromName(name: string): Option<string>
  {
    if name == LiteName then Some("lite")
    else if name == StandardName then Some("standard")
    else if |NotFoundPrefix| + |NotFoundSuffix| <= |name|
      && name[..|NotFoundPrefix|] == NotFoundPrefix
      && name[|name| - |NotFoundSuffix|..] == NotFoundSuffix
    then Some(name[|NotFoundPrefix|..|name| - |NotFoundSuffix|])
    else None
  }

  // ---------------------------------------------------------------------
  // Properties of the lite cap

  /** The cap is min(usage, 1000), and usage at or below the cap is billed in full. */
  lemma CapIsMin(u: int64)
    ensures Cap(u) <= LiteCap
    ensures u <= LiteCap ==> Cap(u) == u
    ensures u >= LiteCap ==> Cap(u) == LiteCap
  {
  }

  /** Capping an already capped quantity changes nothing. */
  lemma CapIdempotent(u: int64)
    ensures Cap(Cap(u)) == Cap(u)
  {
  }

  // ---------------------------------------------------------------------
  // The three branches in full

  lemma LiteComponent(r: EnSubscriptionFirefox, u: int64)
    requires r.plan == "lite" && r.outboundPushMessages == Some(u)
    ensures OutboundPushMessagesCostComponent(r) == Ok(CostComponent(
      LiteName, MessagesUnit, 1, Some(Cap(u)),
      ProductFilter(Vendor, r.region, Service, []), None, Some(0)))
  {
  }

  lemma StandardComponent(r: EnSubscriptionFirefox)
    requires r.plan == "standard"
    ensures OutboundPushMessagesCostComponent(r) == Ok(CostComponent(
      StandardName, MessagesUnit, 1,
      if r.outboundPushMessages.Some? then Some(r.outboundPushMessages.value as int) else None,
      ProductFilter(Vendor, r.region, Service, [AttributeFilter("planName", "standard")]),
      Some(PriceFilter(PushPriceUnit)), None))
  {
  }

  /** An unknown plan gives the same placeholder whatever the usage, absent included. */
  lemma UnknownPlanComponent(r: EnSubscriptionFirefox)
    requires r.plan != "lite" && r.plan != "standard"
    ensures OutboundPushMessagesCostComponent(r) == Ok(CostComponent(
      "Plan " + r.plan + " not found", "", 1, Some(1),
      ProductFilter(Vendor, r.region, Service, [AttributeFilter("planName", r.plan)]),
      None, Some(0)))
  {
  }

  /** Matching is case-sensitive: "Lite" is an unknown plan, and with no
      usage it does not panic. */
  lemma CapitalisedLiteIsUnknown(address: string, region: string, name: string)
    ensures OutboundPushMessagesCostComponent(EnSubscriptionFirefox(address, region, name, "Lite", None))
      == Ok(CostComponent("Plan Lite not found", "", 1, Some(1),
           ProductFilter(Vendor, region, Service, [AttributeFilter("planName", "Lite")]),
           None, Some(0)))
  {
    assert NotFoundName("Lite") == "Plan Lite not found";
  }

  // ---------------------------------------------------------------------
  // What the result depends on

  /** The component depends on the plan, region and usage only: neither the
      address nor the resource name enters it. */
  lemma ComponentIgnoresAddressAndName(r1: EnSubscriptionFirefox, r2: EnSubscriptionFirefox)
    requires r1.plan == r2.plan && r1.region == r2.region
    requires r1.outboundPushMessages == r2.outboundPushMessages
    ensures OutboundPushMessagesCostComponent(r1) == OutboundPushMessagesCostComponent(r2)
  {
  }

  /** Under an unknown plan the usage, absent or not, does not matter. */
  lemma UnknownPlanIgnoresUsage(r: EnSubscriptionFirefox, usage: Option<int64>)
    requires r.plan != "lite" && r.plan != "standard"
    ensures OutboundPushMessagesCostComponent(r.(outboundPushMessages := usage))
      == OutboundPushMessagesCostComponent(r)
  {
  }

  // ---------------------------------------------------------------------
  // The component's name identifies the plan

  /** The placeholder name gives back the plan it was made from. */
  lemma NotFoundNameRoundTrip(plan: string)
    ensures PlanFromName(NotFoundName(plan)) == Some(plan)
  {
    var n := NotFoundName(plan);
    assert n[0] == 'P' && LiteName[0] == 'O' && StandardName[0] == 'O';
    assert n[|NotFoundPrefix|..|n| - |NotFoundSuffix|] == plan;
  }

  /** Distinct unknown plans get distinct placeholder names. */
  lemma NotFoundNameInjective(p1: string, p2: string)
    requires NotFoundName(p1) == NotFoundName(p2)
    ensures p1 == p2
  {
  }

  /** Every component the rule produces names the plan it was priced under,
      so a human reading the report can tell which plan was found. */
  lemma ComponentNameIdentifiesPlan(r: EnSubscriptionFirefox)
    requires OutboundPushMessagesCostComponent(r).Ok?
    ensures PlanFromName(OutboundPushMessagesCostComponent(r).value.name) == Some(r.plan)
  {
    if r.plan != "lite" && r.plan != "standard" {
      NotFoundNameRoundTrip(r.plan);
    }
  }

  /** Any two records that both succeed under different plans get
      different components. */
  lemma DistinctPlansDistinctComponents(r1: EnSubscriptionFirefox, r2: EnSubscriptionFirefox)
    requires OutboundPushMessagesCostComponent(r1).Ok? && OutboundPushMessagesCostComponent(r2).Ok?
    requires r1.plan != r2.plan
    ensures OutboundPushMessagesCostComponent(r1) != OutboundPushMessagesCostComponent(r2)
  {
  }

  // ---------------------------------------------------------------------
  // Worked scenarios

  lemma LiteAboveCapScenario()
    ensures var c := OutboundPushMessagesCostComponent(
      EnSubscriptionFirefox("en.firefox", "us-south", "firefox", "lite", Some(2500)));
      c.Ok? && c.value.name == LiteName
      && c.value.monthlyQuantity == Some(1000) && c.value.customPrice == Some(0)
  {
  }

  lemma LiteWithoutUsagePanics()
    ensures OutboundPushMessagesCostComponent(
      EnSubscriptionFirefox("en.firefox", "us-south", "firefox", "lite", None)).NilDereference?
  {
  }

  lemma StandardScenarios()
    ensures var c := OutboundPushMessagesCostComponent(
      EnSubscriptionFirefox("en.firefox", "us-south", "firefox", "standard", Some(2500)));
      c.Ok? && c.value.monthlyQuantity == Some(2500) && c.value.customPrice.None?
      && c.value.productFilter.attributeFilters == [AttributeFilter("planName", "standard")]
      && c.value.priceFilter == Some(PriceFilter("OUTBOUND_DIGITAL_MESSAGES_PUSH"))
    ensures var c := OutboundPushMessagesCostComponent(
      EnSubscriptionFirefox("en.firefox", "us-south", "firefox", "standard", None));
      c.Ok? && c.value.monthlyQuantity.None?
  {
  }

  lemma UnknownPlanScenario()
    ensures var c := OutboundPushMessagesCostComponent(
      EnSubscriptionFirefox("en.firefox", "us-south", "firefox", "gold", Some(2500)));
      c.Ok? && c.value.name == "Plan gold not found"
      && c.value.monthlyQuantity == Some(1) && c.value.customPrice == Some(0)
  {
  }
}

/** The parts of infracost's `schema` package that the Event Notifications
    Firefox destination resource builds: cost components, their product and
    price filters, usage-schema entries and the resource that carries them.
    Decimal amounts in these records are always whole numbers here, so they
    are modelled as `int`; optional pointers become `Option`. */
module Schema {

  datatype Option<+T> = None | Some(value: T)

  /** A signed 64-bit integer, the type of the usage counters. */
  type int64 = x: int | -0x8000_0000_0000_0000 <= x < 0x8000_0000_0000_0000

  /** One attribute-equality constraint of a product filter. */
  datatype AttributeFilter = AttributeFilter(key: string, value: string)

  /** Selects a product in the price catalog. The three string pointers are
      always set by the resource modelled here, so they are plain strings. */
  datatype ProductFilter = ProductFilter(
    vendorName: string,
    region: string,
    service: string,
    attributeFilters: seq<AttributeFilter>)

  /** Narrows a product's prices by their unit code. */
  datatype PriceFilter = PriceFilter(unit: string)

  /** One priced line of a resource. `unit` is "" where the source leaves it
      unset; `customPrice` is the value `SetCustomPrice` stores, which makes
      the catalog lookup unnecessary. */
  datatype CostComponent = CostComponent(
    name: string,
    unit: string,
    unitMultiplier: int,
    monthlyQuantity: Option<int>,
    productFilter: ProductFilter,
    priceFilter: Option<PriceFilter>,
    customPrice: Option<int>)

  datatype UsageValueType = Int64

  /** A declared usage key with the default shown when no usage is given. */
  datatype UsageItem = UsageItem(key: string, defaultValue: int, valueType: UsageValueType)

  datatype Resource = Resource(
    name: string,
    usageSchema: seq<UsageItem>,
    costComponents: seq<CostComponent>)
}

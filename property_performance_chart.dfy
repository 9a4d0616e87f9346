/** The bar labels of the property performance chart: each property's full
    address shortened to the part before its first comma, at most 30
    characters of it, with "..." when cut. */
module PropertyPerformanceChart {
  import Text
  import AnalyticsService

  type PropertyPerformance = AnalyticsService.PropertyPerformance

  const MaxLabel: nat := 30

  /** The `shortAddress` derivation. `split` always yields at least one
      part, so the whole address is never used as it stands. */
  function ShortAddress(address: string): (r: string)
    ensures |r| <= MaxLabel + 3
    ensures var head := Text.BeforeFirst(address, ',');
      if |head| <= MaxLabel then r == head else r == head[..MaxLabel] + "..."
  {
    var parts := Text.Split(address, ',');
    if |parts| > 0 then
      if |parts[0]| > MaxLabel then parts[0][..MaxLabel] + "..." else parts[0]
    else
      address
  }

  /** A short address is a prefix of the address, with "..." only when the
      first segment was cut; an address without a comma of at most 30
      characters is kept whole. */
  lemma ShortAddressOfAddress(address: string)
    ensures var r := ShortAddress(address);
      Text.StartsWith(address, r) || (Text.StartsWith(address, r[..MaxLabel]) && r[MaxLabel..] == "...")
    ensures ',' !in address && |address| <= MaxLabel ==> ShortAddress(address) == address
  {
  }

  /** `{ ...item, shortAddress }` */
  datatype ChartItem = ChartItem(item: PropertyPerformance, shortAddress: string)

  function ChartData(data: seq<PropertyPerformance>): (r: seq<ChartItem>)
    ensures |r| == |data|
    ensures forall i :: 0 <= i < |data| ==>
      r[i].item == data[i] && r[i].shortAddress == ShortAddress(data[i].propertyAddress)
  {
    seq(|data|, i requires 0 <= i < |data| => ChartItem(data[i], ShortAddress(data[i].propertyAddress)))
  }
}

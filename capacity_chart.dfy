/**
 * The capacity chart: one category per ticket type, and two bar series, the tickets sold
 * and the tickets still available, which stack up to each type's capacity.
 */
module CapacityChart {
  import opened Seqs

  /** One availability entry as the chart reads it. */
  datatype Tier = Tier(ticketType: string, capacitySold: nat, maximunCapacity: nat)

  datatype Series = Series(name: string, data: seq<int>)

  const SoldName: string := "Vendidos"
  const AvailableName: string := "Disponibles"

  function TypeOf(t: Tier): string { t.ticketType }
  function SoldOf(t: Tier): int { t.capacitySold }
  function AvailableOf(t: Tier): int { t.maximunCapacity - t.capacitySold }
  function CapacityOf(t: Tier): int { t.maximunCapacity }

  /** The x-axis categories: the ticket types in input order. */
  function Categories(tiers: seq<Tier>): (categories: seq<string>)
    ensures |categories| == |tiers|
    ensures forall i :: 0 <= i < |tiers| ==> categories[i] == tiers[i].ticketType
  {
    Map(tiers, TypeOf)
  }

  /**
   * The two series, sold first and available second, each with one value per tier; a
   * tier's two bars stack up to its capacity.
   */
  function ChartSeries(tiers: seq<Tier>): (series: seq<Series>)
    ensures |series| == 2
    ensures series[0].name == SoldName && series[1].name == AvailableName
    ensures |series[0].data| == |tiers| && |series[1].data| == |tiers|
    ensures forall i :: 0 <= i < |tiers| ==> series[0].data[i] == tiers[i].capacitySold
    ensures forall i :: 0 <= i < |tiers| ==> series[0].data[i] + series[1].data[i] == tiers[i].maximunCapacity
  {
    [Series(SoldName, Map(tiers, SoldOf)), Series(AvailableName, Map(tiers, AvailableOf))]
  }

  /** The available bar is never negative while no tier is oversold. */
  lemma AvailableNonNegative(tiers: seq<Tier>)
    requires forall i :: 0 <= i < |tiers| ==> tiers[i].capacitySold <= tiers[i].maximunCapacity
    ensures forall i :: 0 <= i < |tiers| ==> ChartSeries(tiers)[1].data[i] >= 0
  {
  }

  function Identity(x: int): int { x }

  /** Summed over the chart, sold plus available is the total capacity. */
  lemma TotalsAddUp(tiers: seq<Tier>)
    ensures Sum(ChartSeries(tiers)[0].data, Identity) + Sum(ChartSeries(tiers)[1].data, Identity) ==
            Sum(tiers, CapacityOf)
  {
    SumMap(tiers, SoldOf, Identity, SoldOf);
    SumMap(tiers, AvailableOf, Identity, AvailableOf);
    SumOfParts(tiers);
  }

  /** Summing sold and available separately is summing capacities. */
  lemma {:induction false} SumOfParts(tiers: seq<Tier>)
    ensures Sum(tiers, SoldOf) + Sum(tiers, AvailableOf) == Sum(tiers, CapacityOf)
  {
    if tiers != [] {
      SumOfParts(tiers[..|tiers| - 1]);
    }
  }
}

/** The zones page's derived values: the list shown under the type filter,
    the counts in the statistics strip, the labels on each card, and the
    radius selector. */
module ZonesPage {
  import opened Records
  import opened Seqs

  /** The zones whose `type` string equals `t`, in list order. */
  function OfType(zones: seq<Zone>, t: string): seq<Zone> {
    Filter(zones, (z: Zone) => TypeName(z.kind) == t)
  }

  /** `filteredZones`: "all" shows the list as it is; any other filter
      value shows exactly the zones of that type, in their original order. */
  function FilteredZones(zones: seq<Zone>, filterType: string): (r: seq<Zone>)
    ensures filterType == "all" ==> r == zones
    ensures filterType != "all" ==> forall z :: z in r <==> z in zones && TypeName(z.kind) == filterType
  {
    if filterType == "all" then zones else OfType(zones, filterType)
  }

  /** Filtering a list made of two parts shows the filtered first part
      before the filtered second part: the order is kept. */
  lemma FilteredZonesKeepOrder(a: seq<Zone>, b: seq<Zone>, filterType: string)
    ensures FilteredZones(a + b, filterType) == FilteredZones(a, filterType) + FilteredZones(b, filterType)
  {
    if filterType != "all" {
      FilterConcat(a, b, (z: Zone) => TypeName(z.kind) == filterType);
    }
  }

  /** A filter value that no zone type has (the backend's "danger" zones
      are never offered as a filter) shows nothing. */
  lemma {:induction false} UnknownFilterShowsNothing(zones: seq<Zone>, filterType: string)
    requires filterType !in {"all", "safe", "danger", "avoid"}
    ensures FilteredZones(zones, filterType) == []
  {
    if zones != [] {
      UnknownFilterShowsNothing(zones[1..], filterType);
    }
  }

  /** `zoneStats` */
  datatype Stats = Stats(total: nat, safe: nat, avoid: nat)

  function ZoneStats(zones: seq<Zone>): (s: Stats)
    ensures s.total == |zones|
    ensures s.safe == |FilteredZones(zones, "safe")|
    ensures s.avoid == |FilteredZones(zones, "avoid")|
  {
    Stats(|zones|, |OfType(zones, "safe")|, |OfType(zones, "avoid")|)
  }

  /** Every zone has exactly one of the three types. */
  lemma {:induction false} TypeCountsPartition(zones: seq<Zone>)
    ensures |OfType(zones, "safe")| + |OfType(zones, "avoid")| + |OfType(zones, "danger")| == |zones|
  {
    if zones != [] {
      TypeCountsPartition(zones[1..]);
    }
  }

  /** The strip's counts never exceed the total; what they leave out of it
      is exactly the "danger" zones, which have no figure of their own. */
  lemma StatsAccountForDanger(zones: seq<Zone>)
    ensures ZoneStats(zones).safe + ZoneStats(zones).avoid <= ZoneStats(zones).total
    ensures ZoneStats(zones).total - ZoneStats(zones).safe - ZoneStats(zones).avoid
         == |OfType(zones, "danger")|
  {
    TypeCountsPartition(zones);
  }

  /** `typeLabels[zone.type] || "Unknown"`: only "safe" and "avoid" have a
      label. */
  function TypeLabel(kind: ZoneType): (r: string)
    ensures r == "Unknown" <==> kind == Danger
    ensures kind == Safe ==> r == "Safe"
    ensures kind == Avoid ==> r == "Avoid"
  {
    match kind
    case Safe => "Safe"
    case Avoid => "Avoid"
    case Danger => "Unknown"
  }

  /** `zone.category || "General area"` */
  function CategoryLabel(category: string): (r: string)
    ensures r != ""
    ensures category != "" ==> r == category
    ensures category == "" ==> r == "General area"
  {
    if category != "" then category else "General area"
  }

  /** The radius the page starts with, in metres. */
  const InitialRadius := 10000

  /** The values the radius selector offers, in metres. */
  function RadiusOptions(): (r: seq<int>)
    ensures |r| == 4
    ensures InitialRadius in r
    ensures forall i, j :: 0 <= i < j < |r| ==> r[i] < r[j]
    ensures forall i :: 0 <= i < |r| ==> r[i] == 5000 * (i + 1)
  {
    [5000, 10000, 15000, 20000]
  }
}

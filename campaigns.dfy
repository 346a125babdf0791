/**
 * The campaign part of the ads client: one output record per campaign id,
 * first occurrence wins, input order kept, micros converted to dollars.
 */
module Campaigns {
  import opened AdsMetrics

  /** One row of the campaign query: campaign, budget and metrics fields. */
  datatype CampaignRow = CampaignRow(
    id: int,
    name: string,
    status: string,
    budgetMicros: int,
    metrics: Metrics,
    ctr: real,
    conversionRate: real,
    costPerConversion: real)

  /** One campaign as the campaigns endpoint returns it (before rounding and currency formatting). */
  datatype Campaign = Campaign(
    name: string,
    status: string,
    budget: real,
    impressions: int,
    clicks: int,
    cost: real,
    conversions: int,
    ctr: real,
    conversionRate: real,
    costPerConversion: real)

  /** The dictionary built for a kept row. */
  function ToCampaign(row: CampaignRow): (c: Campaign)
    ensures c.budget * 1000000.0 == row.budgetMicros as real
    ensures c.cost * 1000000.0 == row.metrics.costMicros as real
    ensures c.name == row.name && c.status == row.status
    ensures c.impressions == row.metrics.impressions && c.clicks == row.metrics.clicks
    ensures c.conversions == Trunc(row.metrics.conversions)
    ensures row.metrics.conversions >= 0.0 ==>
              c.conversions as real <= row.metrics.conversions < c.conversions as real + 1.0
    ensures c.ctr == row.ctr && c.conversionRate == row.conversionRate
    ensures c.costPerConversion == row.costPerConversion
  {
    Campaign(row.name, row.status, MicrosToDollars(row.budgetMicros),
             row.metrics.impressions, row.metrics.clicks, MicrosToDollars(row.metrics.costMicros),
             Trunc(row.metrics.conversions), row.ctr, row.conversionRate, row.costPerConversion)
  }

  /** `ToCampaign` on every row. */
  function ConvertAll(rows: seq<CampaignRow>): (r: seq<Campaign>)
    ensures |r| == |rows|
    ensures forall i :: 0 <= i < |rows| ==> r[i] == ToCampaign(rows[i])
  {
    if rows == [] then [] else ConvertAll(rows[..|rows| - 1]) + [ToCampaign(rows[|rows| - 1])]
  }

  /** The ids occurring in `rows`. */
  function Ids(rows: seq<CampaignRow>): (r: set<int>)
    ensures r == set i | 0 <= i < |rows| :: rows[i].id
  {
    if rows == [] then {} else Ids(rows[..|rows| - 1]) + {rows[|rows| - 1].id}
  }

  /** The index of the first row carrying `id`. */
  function FirstIndexOf(rows: seq<CampaignRow>, id: int): (i: nat)
    requires id in Ids(rows)
    ensures i < |rows| && rows[i].id == id
    ensures forall j :: 0 <= j < i ==> rows[j].id != id
  {
    var init := rows[..|rows| - 1];
    if id in Ids(init) then FirstIndexOf(init, id) else |rows| - 1
  }

  /** Specification of the dedup loop: keep a row only if its id was not seen before it. */
  function KeepFirst(rows: seq<CampaignRow>): seq<CampaignRow>
  {
    if rows == [] then []
    else
      var init := rows[..|rows| - 1];
      var last := rows[|rows| - 1];
      if last.id in Ids(init) then KeepFirst(init) else KeepFirst(init) + [last]
  }

  /** The loop of `get_campaigns_data` with its `seen_campaigns` set. */
  method CollectCampaigns(rows: seq<CampaignRow>) returns (campaigns: seq<Campaign>)
    ensures campaigns == ConvertAll(KeepFirst(rows))
  {
    campaigns := [];
    var seen: set<int> := {};
    for i := 0 to |rows|
      invariant seen == Ids(rows[..i])
      invariant campaigns == ConvertAll(KeepFirst(rows[..i]))
    {
      assert rows[..i + 1][..i] == rows[..i];
      var row := rows[i];
      if row.id in seen {
        continue;
      }
      seen := seen + {row.id};
      campaigns := campaigns + [ToCampaign(row)];
    }
    assert rows[..|rows|] == rows;
  }

  /** Every id of the input is kept, and no other. */
  lemma {:induction false} KeepFirstIds(rows: seq<CampaignRow>)
    ensures Ids(KeepFirst(rows)) == Ids(rows)
  {
    if rows != [] {
      var init := rows[..|rows| - 1];
      KeepFirstIds(init);
      var k := KeepFirst(init);
      if rows[|rows| - 1].id !in Ids(init) {
        assert (k + [rows[|rows| - 1]])[..|k|] == k;
      }
    }
  }

  /** Each kept row is the first row of the input with its id. */
  lemma {:induction false} KeepFirstPicksFirst(rows: seq<CampaignRow>)
    ensures forall j :: 0 <= j < |KeepFirst(rows)| ==>
              KeepFirst(rows)[j].id in Ids(rows)
              && KeepFirst(rows)[j] == rows[FirstIndexOf(rows, KeepFirst(rows)[j].id)]
  {
    if rows != [] {
      var init := rows[..|rows| - 1];
      var last := rows[|rows| - 1];
      KeepFirstPicksFirst(init);
      var k := KeepFirst(init);
      forall j | 0 <= j < |k|
        ensures k[j].id in Ids(rows) && k[j] == rows[FirstIndexOf(rows, k[j].id)]
      {
        assert FirstIndexOf(rows, k[j].id) == FirstIndexOf(init, k[j].id);
      }
      if last.id !in Ids(init) {
        assert FirstIndexOf(rows, last.id) == |rows| - 1;
      }
    }
  }

  /** Kept rows appear in the order of their first occurrence in the input. */
  lemma {:induction false} KeepFirstKeepsOrder(rows: seq<CampaignRow>)
    ensures forall j :: 0 <= j < |KeepFirst(rows)| ==> KeepFirst(rows)[j].id in Ids(rows)
    ensures forall a, b :: 0 <= a < b < |KeepFirst(rows)| ==>
              FirstIndexOf(rows, KeepFirst(rows)[a].id) < FirstIndexOf(rows, KeepFirst(rows)[b].id)
  {
    KeepFirstPicksFirst(rows);
    if rows != [] {
      var init := rows[..|rows| - 1];
      var last := rows[|rows| - 1];
      KeepFirstKeepsOrder(init);
      KeepFirstPicksFirst(init);
      var k := KeepFirst(init);
      forall j | 0 <= j < |k|
        ensures FirstIndexOf(rows, k[j].id) == FirstIndexOf(init, k[j].id) < |init|
      {
      }
      if last.id !in Ids(init) {
        assert FirstIndexOf(rows, last.id) == |rows| - 1;
      }
    }
  }

  /** The kept rows carry pairwise distinct ids. */
  lemma KeepFirstDistinct(rows: seq<CampaignRow>)
    ensures forall a, b :: 0 <= a < b < |KeepFirst(rows)| ==> KeepFirst(rows)[a].id != KeepFirst(rows)[b].id
  {
    KeepFirstKeepsOrder(rows);
  }

  /** De-duplication never lengthens the list, and empties it only when the input is empty. */
  lemma {:induction false} KeepFirstShorter(rows: seq<CampaignRow>)
    ensures |KeepFirst(rows)| <= |rows|
    ensures KeepFirst(rows) == [] <==> rows == []
  {
    if rows != [] {
      KeepFirstShorter(rows[..|rows| - 1]);
      KeepFirstIds(rows);
      assert rows[0].id in Ids(KeepFirst(rows));
    }
  }
}

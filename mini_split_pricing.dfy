/** Head-count pricing for mini split plans (src/lib/miniSplitPricing.ts):
    a fixed tier table, an exact-match lookup and the plan-type test. */
module MiniSplitPricing {
  import opened Wrappers
  import opened Strings

  datatype MiniSplitHeadTier = MiniSplitHeadTier(heads: int, amount: int, stripePriceId: string)

  const MiniSplitHeadTiers: seq<MiniSplitHeadTier> := [
    MiniSplitHeadTier(4, 340, "price_1Sx7Hb4IltCwxOnNaFhEgNOR"),
    MiniSplitHeadTier(5, 400, "price_1Sx7Hq4IltCwxOnNY8mtIhbM"),
    MiniSplitHeadTier(6, 450, "price_1SxZIY4IltCwxOnNCryF0YRo"),
    MiniSplitHeadTier(7, 475, "price_1SxZIn4IltCwxOnNwDOM6KJM"),
    MiniSplitHeadTier(8, 500, "price_1SxZJ14IltCwxOnNvXSBPiXr"),
    MiniSplitHeadTier(9, 525, "price_1SxZJD4IltCwxOnNL1ViF8YA")
  ]

  /** `tiers.find(tier => tier.heads === heads)`: the first tier whose head
      count equals `heads` exactly, or nothing. */
  function FindTier(tiers: seq<MiniSplitHeadTier>, heads: real): (r: Option<MiniSplitHeadTier>)
    ensures r.None? <==> forall i :: 0 <= i < |tiers| ==> tiers[i].heads as real != heads
    ensures r.Some? ==> exists i :: 0 <= i < |tiers| && tiers[i] == r.value
                                   && r.value.heads as real == heads
                                   && forall j :: 0 <= j < i ==> tiers[j].heads as real != heads
  {
    if tiers == [] then None
    else if tiers[0].heads as real == heads then Some(tiers[0])
    else
      assert forall j :: 0 < j < |tiers| ==> tiers[j] == tiers[1..][j - 1];
      FindTier(tiers[1..], heads)
  }

  /** Every tier's price id has a capital 'I' as its fourteenth character
      ("...4Ilt..."). */
  lemma TierIdSpelling(i: int)
    requires 0 <= i < |MiniSplitHeadTiers|
    ensures MiniSplitHeadTiers[i].stripePriceId[13] == 'I'
  {
    var id := MiniSplitHeadTiers[i].stripePriceId;
    if i == 0 { assert id == "price_1Sx7Hb4IltCwxOnNaFhEgNOR"; }
    else if i == 1 { assert id == "price_1Sx7Hq4IltCwxOnNY8mtIhbM"; }
    else if i == 2 { assert id == "price_1SxZIY4IltCwxOnNCryF0YRo"; }
    else if i == 3 { assert id == "price_1SxZIn4IltCwxOnNwDOM6KJM"; }
    else if i == 4 { assert id == "price_1SxZJ14IltCwxOnNvXSBPiXr"; }
    else { assert id == "price_1SxZJD4IltCwxOnNL1ViF8YA"; }
  }

  /** `getMiniSplitTier(heads)`: a tier of the table whose head count is
      exactly `heads`, or nothing when the table has none. */
  function GetMiniSplitTier(heads: real): (r: Option<MiniSplitHeadTier>)
    ensures r.Some? ==> r.value in MiniSplitHeadTiers && r.value.heads as real == heads
    ensures r.None? <==> forall t :: t in MiniSplitHeadTiers ==> t.heads as real != heads
  {
    FindTier(MiniSplitHeadTiers, heads)
  }

  /** The table has six tiers, for 4 to 9 heads in that order; head counts
      and amounts strictly increase and every price id is a Stripe price id. */
  lemma TierTableShape()
    ensures |MiniSplitHeadTiers| == 6
    ensures forall i :: 0 <= i < 6 ==> MiniSplitHeadTiers[i].heads == i + 4
    ensures forall i, j :: 0 <= i < j < 6 ==>
              MiniSplitHeadTiers[i].heads < MiniSplitHeadTiers[j].heads
              && MiniSplitHeadTiers[i].amount < MiniSplitHeadTiers[j].amount
    ensures forall i :: 0 <= i < 6 ==> StartsWith(MiniSplitHeadTiers[i].stripePriceId, "price_")
  {
  }

  /** The lookup is exact: it finds a tier precisely for the whole numbers
      4 to 9 and then returns that tier's amount and price id; any other
      number (0 to 3, 10, a fraction) finds nothing, with no nearest-tier
      fallback. */
  lemma GetMiniSplitTierExact(heads: real)
    ensures GetMiniSplitTier(heads).Some? <==> heads == heads.Floor as real && 4 <= heads.Floor <= 9
    ensures GetMiniSplitTier(heads).Some? ==>
              GetMiniSplitTier(heads) == Some(MiniSplitHeadTiers[heads.Floor - 4])
  {
    TierTableShape();
    var r := GetMiniSplitTier(heads);
    if r.Some? {
      var i :| 0 <= i < 6 && MiniSplitHeadTiers[i] == r.value && r.value.heads as real == heads;
      assert heads.Floor == i + 4;
    }
    if heads == heads.Floor as real && 4 <= heads.Floor <= 9 {
      assert MiniSplitHeadTiers[heads.Floor - 4].heads as real == heads;
    }
  }

  /** `isMiniSplitPlan(planName)`: the lower-cased name, with null or
      undefined read as "", contains "mini split". */
  predicate IsMiniSplitPlan(planName: Option<string>)
    ensures IsMiniSplitPlan(planName) ==> planName.Some? && |planName.value| >= |"mini split"|
  {
    Contains(Lower(planName.GetOr("")), "mini split")
  }

  /** A missing name is never a mini split plan. */
  lemma MissingNameIsNotMiniSplit()
    ensures !IsMiniSplitPlan(None)
  {
  }

  /** Letter case in the name does not matter. */
  lemma IsMiniSplitPlanIgnoresCase(a: string, b: string)
    requires |a| == |b|
    requires forall i :: 0 <= i < |a| ==> LowerChar(a[i]) == LowerChar(b[i])
    ensures IsMiniSplitPlan(Some(a)) <==> IsMiniSplitPlan(Some(b))
  {
    LowerIgnoresCase(a, b);
  }

  /** "Mini Split" is recognised in any letter case; "Gold" is not a mini split plan. */
  lemma MiniSplitNameRecognised()
    ensures IsMiniSplitPlan(Some("MINI SPLIT"))
    ensures !IsMiniSplitPlan(Some("Gold"))
  {
    var l := Lower("MINI SPLIT");
    assert l == "mini split" by {
      assert forall i :: 0 <= i < |l| ==> l[i] == "mini split"[i];
    }
    assert OccursAt(l, "mini split", 0);
  }
}

/**
 * The campaign page: one campaign loaded from the store, its funding bar,
 * and backing it by clicking one of its reward tiers.
 */
module CampaignDetail {
  import opened Types
  import Store
  import Home

  function RealMin(a: real, b: real): real
  {
    if a <= b then a else b
  }

  /** The width of the funding bar: the unrounded percentage, capped at 100. */
  function DisplayedProgress(current: int, target: int): (r: Home.Capped<real>)
    ensures r.Finite? ==> r.value <= 100.0
    ensures target != 0 || current > 0 ==> r.Finite?
  {
    if target == 0 then
      if current > 0 then Home.Finite(100.0)
      else if current == 0 then Home.NaN
      else Home.NegInfinity
    else
      Home.Finite(RealMin(100.0, current as real / target as real * 100.0))
  }

  /** For a positive target the bar is full once the target is met, and otherwise shows the exact ratio. */
  lemma DisplayedProgressValues(current: int, target: int)
    requires target > 0
    ensures current >= target ==> DisplayedProgress(current, target) == Home.Finite(100.0)
    ensures current < target ==>
      DisplayedProgress(current, target) == Home.Finite(current as real * 100.0 / target as real)
    ensures current >= 0 ==> DisplayedProgress(current, target).value >= 0.0
  {
    var c, t := current as real, target as real;
    var y := c / t;
    assert y * t == c;
    if current >= target {
      assert (y - 1.0) * t == c - t;
    }
    assert c * 100.0 / t == y * 100.0;
  }

  /** The percentage on the browse cards is this bar's width rounded half up. */
  lemma CardProgressIsRoundedBar(current: int, target: int)
    ensures Home.CalculateProgress(current, target) ==
      match DisplayedProgress(current, target)
      case Finite(x) => Home.Finite(Home.RoundHalfUp(x))
      case NaN => Home.NaN
      case NegInfinity => Home.NegInfinity
  {
    if target != 0 {
      var x := current as real / target as real * 100.0;
      if x >= 100.0 {
        assert Home.RoundHalfUp(x) >= 100;
      }
    }
  }

  class DetailPage {
    var campaign: Option<Campaign>

    constructor ()
      ensures campaign == None
    {
      campaign := None;
    }

    /** Loads the campaign named in the route; without an id, or with an empty one, nothing is loaded. */
    method Load(store: Store.CampaignStore, id: Option<string>)
      modifies this`campaign, store`slot
      ensures id.Some? && id.value != "" ==> campaign == Store.FindById(old(store.Stored()), id.value)
      ensures id.Some? && id.value != "" ==> store.slot == Some(old(store.Stored()))
      ensures id.None? || id.value == "" ==> campaign == old(campaign) && store.slot == old(store.slot)
    {
      if id.Some? && id.value != "" {
        campaign := store.GetCampaignById(id.value);
      }
    }

    /**
     * Backs the campaign: records the contribution in the store and credits
     * the local copy without reloading it. Nothing happens without a campaign.
     */
    method HandleBack(store: Store.CampaignStore, amount: int)
      modifies this`campaign, store
      ensures old(campaign).None? ==>
        campaign == None && store.slot == old(store.slot) && store.seedData == old(store.seedData)
      ensures old(campaign).Some? ==>
        && store.slot == Some(Store.Contribute(old(store.Stored()), old(campaign).value.id, amount))
        && store.seedData == (if old(store.slot).None? then Store.Contribute(old(store.seedData), old(campaign).value.id, amount) else old(store.seedData))
        && campaign == Some(Store.Credit(old(campaign).value, amount))
      ensures old(campaign).Some? && old(campaign) == Store.FindById(old(store.Stored()), old(campaign).value.id)
              ==> campaign == Store.FindById(store.Stored(), campaign.value.id)
    {
      if campaign.None? {
        return;
      }
      var c := campaign.value;
      store.BackCampaign(c.id, amount);
      Store.ContributeEffect(old(store.Stored()), c.id, amount, c.id);
      campaign := Some(Store.Credit(c, amount));
    }

    /** Clicking the k-th reward tier contributes exactly that tier's amount. */
    method SelectTier(store: Store.CampaignStore, k: nat)
      requires campaign.Some? && k < |campaign.value.tiers|
      modifies this`campaign, store
      ensures campaign == Some(Store.Credit(old(campaign.value), old(campaign.value.tiers[k].amount)))
      ensures campaign.value.currentAmount == old(campaign.value.currentAmount) + old(campaign.value.tiers[k].amount)
      ensures store.slot == Some(Store.Contribute(old(store.Stored()), old(campaign.value.id), old(campaign.value.tiers[k].amount)))
      ensures store.seedData ==
        if old(store.slot).None? then Store.Contribute(old(store.seedData), old(campaign.value.id), old(campaign.value.tiers[k].amount))
        else old(store.seedData)
    {
      HandleBack(store, campaign.value.tiers[k].amount);
    }
  }

  /**
   * Opening a campaign and backing it leaves the page showing exactly what
   * the store now holds. A route parameter is never empty.
   */
  method BackAfterLoad(store: Store.CampaignStore, id: string, amount: int) returns (shown: Option<Campaign>)
    requires id != ""
    modifies store
    ensures shown == Store.FindById(store.Stored(), id)
    ensures store.slot == Some(Store.Contribute(old(store.Stored()), id, amount))
  {
    var page := new DetailPage();
    page.Load(store, Some(id));
    page.HandleBack(store, amount);
    if page.campaign.None? {
      assert !Store.HasId(old(store.Stored()), id);
      Store.ContributeEffect(old(store.Stored()), id, amount, id);
    }
    shown := page.campaign;
  }
}

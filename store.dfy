/**
 * The campaign store: the whole collection lives, serialized, in one
 * key-value slot. Every operation loads the whole collection and every
 * mutation writes the whole collection back. Serialization is taken to be
 * the identity, so the slot holds the sequence itself.
 */
module Store {
  import opened Types

  // ---------------------------------------------------------------------
  // Specification of the collection operations, on values
  // ---------------------------------------------------------------------

  /** Some stored campaign carries `id`. */
  predicate HasId(cs: seq<Campaign>, id: string)
  {
    exists k :: 0 <= k < |cs| && cs[k].id == id
  }

  /** No two stored campaigns share an id. */
  predicate IdsDistinct(cs: seq<Campaign>)
  {
    forall i, j :: 0 <= i < j < |cs| ==> cs[i].id != cs[j].id
  }

  /** The position of the first campaign with `id`, as `findIndex` yields it (None for -1). */
  function FindIndex(cs: seq<Campaign>, id: string): (r: Option<nat>)
    ensures r.Some? ==> r.value < |cs| && cs[r.value].id == id
    ensures r.Some? ==> forall k :: 0 <= k < r.value ==> cs[k].id != id
    ensures r.None? <==> !HasId(cs, id)
  {
    if cs == [] then None
    else if cs[0].id == id then Some(0)
    else match FindIndex(cs[1..], id)
      case None => None
      case Some(k) => Some(k + 1)
  }

  /** The first campaign with `id`, as `find` yields it; absence is a value, never a failure. */
  function FindById(cs: seq<Campaign>, id: string): (r: Option<Campaign>)
    ensures r.Some? <==> HasId(cs, id)
    ensures r.Some? ==> r.value in cs && r.value.id == id
    ensures r.Some? ==> exists k :: 0 <= k < |cs| && cs[k] == r.value && forall j :: 0 <= j < k ==> cs[j].id != id
  {
    match FindIndex(cs, id)
    case None => None
    case Some(i) => Some(cs[i])
  }

  /** Upsert by id: the first campaign with the same id is replaced, otherwise `c` goes at the end. */
  function Upsert(cs: seq<Campaign>, c: Campaign): seq<Campaign>
  {
    if cs == [] then [c]
    else if cs[0].id == c.id then [c] + cs[1..]
    else [cs[0]] + Upsert(cs[1..], c)
  }

  /** The campaign with its raised amount increased by `amount`; nothing else changes. */
  function Credit(c: Campaign, amount: int): (r: Campaign)
    ensures r.currentAmount == c.currentAmount + amount
    ensures r.(currentAmount := c.currentAmount) == c
  {
    c.(currentAmount := c.currentAmount + amount)
  }

  /** A contribution: the first campaign with `id` is credited; an unknown id changes nothing. */
  function Contribute(cs: seq<Campaign>, id: string, amount: int): seq<Campaign>
  {
    if cs == [] then []
    else if cs[0].id == id then [Credit(cs[0], amount)] + cs[1..]
    else [cs[0]] + Contribute(cs[1..], id, amount)
  }

  /** The amount raised over the whole collection. */
  function TotalRaised(cs: seq<Campaign>): int
  {
    if cs == [] then 0 else cs[0].currentAmount + TotalRaised(cs[1..])
  }

  // ---------------------------------------------------------------------
  // Upsert
  // ---------------------------------------------------------------------

  /** Upsert is an in-place replacement at the index `findIndex` reports, or an append. */
  lemma {:induction false} UpsertByIndex(cs: seq<Campaign>, c: Campaign)
    ensures FindIndex(cs, c.id).Some? ==> Upsert(cs, c) == cs[FindIndex(cs, c.id).value := c]
    ensures FindIndex(cs, c.id).None? ==> Upsert(cs, c) == cs + [c]
  {
    if cs != [] && cs[0].id != c.id {
      UpsertByIndex(cs[1..], c);
      assert cs == [cs[0]] + cs[1..];
    }
  }

  /** A present id keeps the length and replaces that entry only; a new id appends exactly one. */
  lemma UpsertShape(cs: seq<Campaign>, c: Campaign)
    ensures HasId(cs, c.id) ==> |Upsert(cs, c)| == |cs|
    ensures HasId(cs, c.id) ==>
      var i := FindIndex(cs, c.id).value;
      Upsert(cs, c)[i] == c && forall k :: 0 <= k < |cs| && k != i ==> Upsert(cs, c)[k] == cs[k]
    ensures !HasId(cs, c.id) ==> |Upsert(cs, c)| == |cs| + 1 && Upsert(cs, c)[..|cs|] == cs && Upsert(cs, c)[|cs|] == c
  {
    UpsertByIndex(cs, c);
  }

  /** The first position carrying `id` is what `findIndex` reports. */
  lemma FindIndexAtFirst(cs: seq<Campaign>, id: string, i: nat)
    requires i < |cs| && cs[i].id == id
    requires forall k :: 0 <= k < i ==> cs[k].id != id
    ensures FindIndex(cs, id) == Some(i)
  {
    assert HasId(cs, id);
  }

  /** After an upsert, looking the saved id up yields the saved campaign. */
  lemma UpsertFindsSaved(cs: seq<Campaign>, c: Campaign)
    ensures FindById(Upsert(cs, c), c.id) == Some(c)
  {
    UpsertByIndex(cs, c);
    var r := Upsert(cs, c);
    match FindIndex(cs, c.id)
    case Some(i) =>
      FindIndexAtFirst(r, c.id, i);
    case None =>
      FindIndexAtFirst(r, c.id, |cs|);
  }

  /** An upsert does not change what any other id looks up to. */
  lemma {:induction false} UpsertKeepsOthers(cs: seq<Campaign>, c: Campaign, id: string)
    requires id != c.id
    ensures FindById(Upsert(cs, c), id) == FindById(cs, id)
  {
    var r := Upsert(cs, c);
    if cs == [] {
      FindByIdPastHead(r, id);
    } else if cs[0].id == c.id {
      FindByIdPastHead(r, id);
      FindByIdPastHead(cs, id);
      assert r[1..] == cs[1..];
    } else {
      UpsertKeepsOthers(cs[1..], c, id);
      assert r[1..] == Upsert(cs[1..], c);
      if cs[0].id != id {
        FindByIdPastHead(r, id);
        FindByIdPastHead(cs, id);
      }
    }
  }

  /** A lookup skips a head that carries another id. */
  lemma FindByIdPastHead(cs: seq<Campaign>, id: string)
    requires cs != [] && cs[0].id != id
    ensures FindById(cs, id) == FindById(cs[1..], id)
  {
  }

  /** Upsert keeps the stored ids pairwise distinct. */
  lemma UpsertKeepsIdsDistinct(cs: seq<Campaign>, c: Campaign)
    requires IdsDistinct(cs)
    ensures IdsDistinct(Upsert(cs, c))
  {
    UpsertByIndex(cs, c);
    var r := Upsert(cs, c);
    match FindIndex(cs, c.id)
    case Some(i) =>
      assert forall k :: 0 <= k < |cs| ==> r[k].id == cs[k].id;
    case None =>
      assert forall k :: 0 <= k < |cs| ==> r[k] == cs[k];
  }

  /** Saving the same campaign twice is the same as saving it once. */
  lemma UpsertIdempotent(cs: seq<Campaign>, c: Campaign)
    ensures Upsert(Upsert(cs, c), c) == Upsert(cs, c)
  {
    UpsertByIndex(cs, c);
    UpsertFindsSaved(cs, c);
    var r := Upsert(cs, c);
    UpsertByIndex(r, c);
    var i := FindIndex(r, c.id).value;
    assert r[i] == c;
    assert r[i := c] == r;
  }

  // ---------------------------------------------------------------------
  // Contribute
  // ---------------------------------------------------------------------

  /** A contribution credits the entry `find` locates, in place; an unknown id leaves everything as it was. */
  lemma {:induction false} ContributeByIndex(cs: seq<Campaign>, id: string, amount: int)
    ensures FindIndex(cs, id).Some? ==>
      var i := FindIndex(cs, id).value;
      Contribute(cs, id, amount) == cs[i := Credit(cs[i], amount)]
    ensures FindIndex(cs, id).None? ==> Contribute(cs, id, amount) == cs
  {
    if cs != [] && cs[0].id != id {
      ContributeByIndex(cs[1..], id, amount);
      assert cs == [cs[0]] + cs[1..];
    }
  }

  /** Crediting the entry `find` locates is an upsert of the credited entry. */
  lemma ContributeIsUpsert(cs: seq<Campaign>, id: string, amount: int)
    requires HasId(cs, id)
    ensures Contribute(cs, id, amount) == Upsert(cs, Credit(FindById(cs, id).value, amount))
  {
    ContributeByIndex(cs, id, amount);
    UpsertByIndex(cs, Credit(FindById(cs, id).value, amount));
  }

  /**
   * A contribution to a present id raises that campaign's amount by exactly
   * `amount` and changes none of its other fields, no other campaign and not
   * the length; an absent id changes nothing.
   */
  lemma ContributeEffect(cs: seq<Campaign>, id: string, amount: int, other: string)
    ensures |Contribute(cs, id, amount)| == |cs|
    ensures HasId(cs, id) ==>
      var i := FindIndex(cs, id).value;
      && Contribute(cs, id, amount)[i].currentAmount == cs[i].currentAmount + amount
      && Contribute(cs, id, amount)[i].(currentAmount := cs[i].currentAmount) == cs[i]
      && forall k :: 0 <= k < |cs| && k != i ==> Contribute(cs, id, amount)[k] == cs[k]
    ensures HasId(cs, id) ==>
      FindById(Contribute(cs, id, amount), id) == Some(Credit(FindById(cs, id).value, amount))
    ensures !HasId(cs, id) ==> Contribute(cs, id, amount) == cs
    ensures other != id ==> FindById(Contribute(cs, id, amount), other) == FindById(cs, other)
  {
    ContributeByIndex(cs, id, amount);
    if HasId(cs, id) {
      ContributeIsUpsert(cs, id, amount);
      UpsertFindsSaved(cs, Credit(FindById(cs, id).value, amount));
      if other != id {
        UpsertKeepsOthers(cs, Credit(FindById(cs, id).value, amount), other);
      }
    }
  }

  /** Two contributions to the same campaign add up. */
  lemma {:induction false} ContributeAdditive(cs: seq<Campaign>, id: string, a: int, b: int)
    ensures Contribute(Contribute(cs, id, a), id, b) == Contribute(cs, id, a + b)
  {
    if cs != [] && cs[0].id != id {
      ContributeAdditive(cs[1..], id, a, b);
      assert Contribute(cs, id, a)[1..] == Contribute(cs[1..], id, a);
    }
  }

  /** No contribution is lost: the collection's total rises by the amount exactly when the id is present. */
  lemma {:induction false} ContributeTotal(cs: seq<Campaign>, id: string, amount: int)
    ensures TotalRaised(Contribute(cs, id, amount)) == TotalRaised(cs) + (if HasId(cs, id) then amount else 0)
  {
    if cs != [] {
      var r := Contribute(cs, id, amount);
      if cs[0].id == id {
        assert r[1..] == cs[1..];
      } else {
        ContributeTotal(cs[1..], id, amount);
        assert r[1..] == Contribute(cs[1..], id, amount);
        assert HasId(cs, id) <==> HasId(cs[1..], id) by {
          if HasId(cs, id) {
            var k :| 0 <= k < |cs| && cs[k].id == id;
            assert cs[1..][k - 1].id == id;
          }
          if HasId(cs[1..], id) {
            var k :| 0 <= k < |cs[1..]| && cs[1..][k].id == id;
            assert cs[k + 1].id == id;
          }
        }
      }
    }
  }

  /** A contribution keeps the stored ids pairwise distinct. */
  lemma ContributeKeepsIdsDistinct(cs: seq<Campaign>, id: string, amount: int)
    requires IdsDistinct(cs)
    ensures IdsDistinct(Contribute(cs, id, amount))
  {
    ContributeByIndex(cs, id, amount);
  }

  // ---------------------------------------------------------------------
  // The seed collection
  // ---------------------------------------------------------------------

  /**
   * The two sample campaigns written on first use. Their deadlines and
   * creation times are read from the clock, once per campaign, when the
   * module loads, so they are parameters here.
   */
  function SeedData(deadline1: string, createdAt1: string, deadline2: string, createdAt2: string): seq<Campaign>
  {
    [ Campaign(
        "1", "Elena Stark", EcoDroneTitle, EcoDroneTagline, EcoDroneDescription,
        Technology, "https://picsum.photos/800/450?random=1",
        50000, 34500, deadline1, createdAt1, Active, EcoDroneTiers, Some(EcoDroneAnalysis)),
      Campaign(
        "2", "Pixel Studio", NeonNightsTitle, NeonNightsTagline, NeonNightsDescription,
        Games, "https://picsum.photos/800/450?random=2",
        20000, 4500, deadline2, createdAt2, Active, NeonNightsTiers, None) ]
  }

  const EcoDroneTitle: string := "EcoDrone: Reforestation AI"
  const EcoDroneTagline: string := "Autonomous drones planting 10,000 trees a day."
  const EcoDroneDescription: string :=
    "EcoDrone utilizes advanced computer vision and swarm robotics to identify optimal planting locations and deploy biodegradable seed pods. Help us restore the planet\'s lungs with technology."
  const EcoDroneTiers: seq<Tier> :=
    [ Tier("t1", "Seedling Supporter", 25, "Digital thank you card + tree planted in your name."),
      Tier("t2", "Forest Guardian", 100, "T-shirt + 10 trees planted + GPS coords.") ]
  const EcoDroneAnalysis: AiAnalysis :=
    AiAnalysis("Environmental activists, tech enthusiasts, green investors.",
               "Join the green revolution from the sky.", 85)

  const NeonNightsTitle: string := "Neon Nights: Cyberpunk RPG"
  const NeonNightsTagline: string := "An open-world RPG set in a procedurally generated mega-city."
  const NeonNightsDescription: string :=
    "Explore the depths of Neo-Tokyo in this immersive RPG. Featuring a unique synth-wave soundtrack and deep character customization powered by generative AI."
  const NeonNightsTiers: seq<Tier> :=
    [ Tier("t1", "Digital Copy", 30, "Steam key on launch."),
      Tier("t2", "Beta Access", 60, "Play 6 months early + Digital Artbook.") ]

  /** The seed holds two campaigns, ids "1" then "2", distinct; only the first has an analysis. */
  lemma SeedShape(d1: string, t1: string, d2: string, t2: string)
    ensures var s := SeedData(d1, t1, d2, t2);
      && |s| == 2 && s[0].id == "1" && s[1].id == "2" && IdsDistinct(s)
      && s[0].currentAmount == 34500 && s[0].aiAnalysis.Some? && s[1].aiAnalysis.None?
      && s[0].tiers[0].id == s[1].tiers[0].id
  {
  }

  /**
   * The scenario on the seed: campaign "1" starts at 34500, a contribution of
   * 500 takes it to 35000, and a contribution to an unknown id changes nothing.
   */
  lemma SeedContributionScenario(d1: string, t1: string, d2: string, t2: string)
    ensures FindById(SeedData(d1, t1, d2, t2), "1").Some?
    ensures FindById(SeedData(d1, t1, d2, t2), "1").value.currentAmount == 34500
    ensures FindById(Contribute(SeedData(d1, t1, d2, t2), "1", 500), "1").value.currentAmount == 35000
    ensures Contribute(Contribute(SeedData(d1, t1, d2, t2), "1", 500), "missing-id", 500)
         == Contribute(SeedData(d1, t1, d2, t2), "1", 500)
  {
    var s := SeedData(d1, t1, d2, t2);
    assert s[0].id == "1";
    ContributeEffect(s, "1", 500, "1");
    var s' := Contribute(s, "1", 500);
    assert s'[0].id == "1" && s'[1].id == "2";
    assert !HasId(s', "missing-id");
    ContributeEffect(s', "missing-id", 500, "1");
  }

  // ---------------------------------------------------------------------
  // The store itself
  // ---------------------------------------------------------------------

  /**
   * The one storage slot (None while nothing has been written), and the
   * in-memory seed array. The seed is a variable because on first use the
   * store hands the seed array itself to its callers, and the save and
   * contribution paths then update that array in place.
   */
  class CampaignStore {
    var slot: Option<seq<Campaign>>
    var seedData: seq<Campaign>

    constructor (stored: Option<seq<Campaign>>, seedDeadline1: string, seedCreatedAt1: string,
                 seedDeadline2: string, seedCreatedAt2: string)
      ensures slot == stored
      ensures seedData == SeedData(seedDeadline1, seedCreatedAt1, seedDeadline2, seedCreatedAt2)
    {
      slot := stored;
      seedData := SeedData(seedDeadline1, seedCreatedAt1, seedDeadline2, seedCreatedAt2);
    }

    /** The collection every operation reads: the slot's content, or the seed while the slot is empty. */
    function Stored(): seq<Campaign>
      reads this
    {
      match slot
      case None => seedData
      case Some(cs) => cs
    }

    /** Lists the campaigns; on an empty slot, first writes the seed and returns it. */
    method GetCampaigns() returns (cs: seq<Campaign>)
      modifies this`slot
      ensures cs == old(Stored())
      ensures old(slot).None? ==> cs == seedData
      ensures old(slot).Some? ==> cs == old(slot).value
      ensures slot == Some(cs)
    {
      match slot
      case None =>
        slot := Some(seedData);
        cs := seedData;
      case Some(stored) =>
        cs := stored;
    }

    /** Looks a campaign up by id; a missing id yields None. Seeds an empty slot. */
    method GetCampaignById(id: string) returns (r: Option<Campaign>)
      modifies this`slot
      ensures r == FindById(old(Stored()), id)
      ensures slot == Some(old(Stored()))
    {
      var campaigns := GetCampaigns();
      r := FindById(campaigns, id);
    }

    /** Upserts by id and writes the whole collection back. */
    method SaveCampaign(campaign: Campaign)
      modifies this
      ensures slot == Some(Upsert(old(Stored()), campaign))
      ensures seedData == if old(slot).None? then Upsert(old(seedData), campaign) else old(seedData)
    {
      var wasEmpty := slot.None?;
      var campaigns := GetCampaigns();
      var index := FindIndex(campaigns, campaign.id);
      if index.Some? {
        campaigns := campaigns[index.value := campaign];
      } else {
        campaigns := campaigns + [campaign];
      }
      if wasEmpty {
        // the list just updated is the seed array itself
        seedData := campaigns;
      }
      UpsertByIndex(old(Stored()), campaign);
      slot := Some(campaigns);
    }

    /** Adds `amount` to the raised amount of the campaign with `id`; an unknown id is silently ignored. */
    method BackCampaign(id: string, amount: int)
      modifies this
      ensures slot == Some(Contribute(old(Stored()), id, amount))
      ensures seedData == if old(slot).None? then Contribute(old(seedData), id, amount) else old(seedData)
    {
      var wasEmpty := slot.None?;
      var campaigns := GetCampaigns();
      var index := FindIndex(campaigns, id);
      ContributeByIndex(campaigns, id, amount);
      if index.Some? {
        var campaign := Credit(campaigns[index.value], amount);
        if wasEmpty {
          // the campaign object credited in place belongs to the seed array
          seedData := seedData[index.value := campaign];
        }
        ContributeIsUpsert(campaigns, id, amount);
        SaveCampaign(campaign);
      }
    }
  }

  /** Listing an empty store twice yields the seed both times: the first call writes it, the second reads it back. */
  method SeedListedTwice(d1: string, t1: string, d2: string, t2: string) returns (first: seq<Campaign>, second: seq<Campaign>)
    ensures first == second == SeedData(d1, t1, d2, t2)
    ensures |first| == 2 && first[0].id == "1" && first[1].id == "2"
  {
    var store := new CampaignStore(None, d1, t1, d2, t2);
    first := store.GetCampaigns();
    second := store.GetCampaigns();
  }

  /** The contribution scenario run against a store whose slot starts empty. */
  method FirstRunContribution(d1: string, t1: string, d2: string, t2: string) returns (raised: int, count: nat)
    ensures raised == 35000
    ensures count == 2
  {
    var store := new CampaignStore(None, d1, t1, d2, t2);
    var all := store.GetCampaigns();
    SeedContributionScenario(d1, t1, d2, t2);
    store.BackCampaign("1", 500);
    store.BackCampaign("missing-id", 500);
    var found := store.GetCampaignById("1");
    raised := found.value.currentAmount;
    var after := store.GetCampaigns();
    ContributeEffect(Contribute(all, "1", 500), "missing-id", 500, "1");
    count := |after|;
  }
}

/**
 * The five-step creation wizard: concept (1), generated narrative (2),
 * generated image (3), reward tiers (4), final review and launch (5).
 * Replies of the generation service, fresh ids, timestamps and the mock
 * success probability are supplied by the caller.
 */
module CreateCampaign {
  import opened Types
  import opened Seqs
  import Store

  /** The tier being typed into the "Add New Tier" form. */
  datatype TierDraft = TierDraft(title: string, amount: int, description: string)

  const EmptyDraft: TierDraft := TierDraft("", 0, "")

  /** The single tier a new wizard starts with. */
  const EarlyBird: Tier := Tier("1", "Early Bird", 25, "Get a digital copy of the project and a thank you note.")

  /** The image used when no image was generated. */
  const PlaceholderImage: string := "https://picsum.photos/800/450"

  /** The launched campaign's creator name, a fixed mock. */
  const CurrentUser: string := "Current User"

  // ---------------------------------------------------------------------
  // Tier list operations, on values
  // ---------------------------------------------------------------------

  /** The add-tier guard: title, amount and description must all be truthy (a negative amount passes). */
  predicate DraftComplete(d: TierDraft)
  {
    d.title != "" && d.amount != 0 && d.description != ""
  }

  predicate HasTierId(tiers: seq<Tier>, id: string)
  {
    exists k :: 0 <= k < |tiers| && tiers[k].id == id
  }

  predicate TierIdsDistinct(tiers: seq<Tier>)
  {
    forall i, j :: 0 <= i < j < |tiers| ==> tiers[i].id != tiers[j].id
  }

  /** The list after adding the draft under `id`, or unchanged when the guard rejects the draft. */
  function AddTierTo(tiers: seq<Tier>, d: TierDraft, id: string): seq<Tier>
  {
    if DraftComplete(d) then tiers + [Tier(id, d.title, d.amount, d.description)] else tiers
  }

  /** The list without every tier carrying `id`. */
  function RemoveTierFrom(tiers: seq<Tier>, id: string): (r: seq<Tier>)
    ensures |r| <= |tiers|
  {
    if tiers == [] then []
    else (if tiers[0].id != id then [tiers[0]] else []) + RemoveTierFrom(tiers[1..], id)
  }

  /** An accepted draft is appended, exactly once, at the end; a rejected one changes nothing. */
  lemma AddTierEffect(tiers: seq<Tier>, d: TierDraft, id: string)
    ensures DraftComplete(d) ==>
      && |AddTierTo(tiers, d, id)| == |tiers| + 1
      && AddTierTo(tiers, d, id)[..|tiers|] == tiers
      && AddTierTo(tiers, d, id)[|tiers|] == Tier(id, d.title, d.amount, d.description)
    ensures !DraftComplete(d) ==> AddTierTo(tiers, d, id) == tiers
    ensures d.title == "" || d.amount == 0 || d.description == "" ==> AddTierTo(tiers, d, id) == tiers
  {
  }

  /** Removal keeps exactly the tiers with another id. */
  lemma {:induction false} RemoveTierMembers(tiers: seq<Tier>, id: string, t: Tier)
    ensures t in RemoveTierFrom(tiers, id) <==> t in tiers && t.id != id
  {
    if tiers != [] {
      RemoveTierMembers(tiers[1..], id, t);
      assert tiers == [tiers[0]] + tiers[1..];
    }
  }

  /** Removal keeps each tier with another id exactly as many times as it was listed, and no tier with `id`. */
  lemma {:induction false} RemoveTierCounts(tiers: seq<Tier>, id: string, t: Tier)
    ensures multiset(RemoveTierFrom(tiers, id))[t] == if t.id != id then multiset(tiers)[t] else 0
  {
    if tiers != [] {
      RemoveTierCounts(tiers[1..], id, t);
      assert tiers == [tiers[0]] + tiers[1..];
    }
  }

  /** Removal keeps the remaining tiers in their order and leaves no tier with that id. */
  lemma {:induction false} RemoveTierOrder(tiers: seq<Tier>, id: string)
    ensures IsSubsequence(RemoveTierFrom(tiers, id), tiers)
    ensures !HasTierId(RemoveTierFrom(tiers, id), id)
  {
    if tiers != [] {
      var rest := RemoveTierFrom(tiers[1..], id);
      RemoveTierOrder(tiers[1..], id);
      assert tiers == [tiers[0]] + tiers[1..];
      if tiers[0].id != id {
        SubsequenceCons(tiers[0], rest, tiers[1..]);
        assert RemoveTierFrom(tiers, id) == [tiers[0]] + rest;
      } else {
        assert RemoveTierFrom(tiers, id) == rest;
        SubsequenceSkip(tiers[0], rest, tiers[1..]);
      }
    }
  }

  /** Removing an id no tier carries changes nothing. */
  lemma {:induction false} RemoveAbsentTier(tiers: seq<Tier>, id: string)
    requires !HasTierId(tiers, id)
    ensures RemoveTierFrom(tiers, id) == tiers
  {
    if tiers != [] {
      assert tiers[0].id != id;
      assert !HasTierId(tiers[1..], id);
      RemoveAbsentTier(tiers[1..], id);
      assert tiers == [tiers[0]] + tiers[1..];
    }
  }

  /** Removal distributes over concatenation. */
  lemma {:induction false} RemoveTierAppend(a: seq<Tier>, b: seq<Tier>, id: string)
    ensures RemoveTierFrom(a + b, id) == RemoveTierFrom(a, id) + RemoveTierFrom(b, id)
  {
    if a != [] {
      RemoveTierAppend(a[1..], b, id);
      assert (a + b)[1..] == a[1..] + b;
    } else {
      assert a + b == b;
    }
  }

  /** Adding a tier under a fresh id and then removing that id restores the list. */
  lemma AddThenRemoveTier(tiers: seq<Tier>, d: TierDraft, id: string)
    requires !HasTierId(tiers, id)
    ensures RemoveTierFrom(AddTierTo(tiers, d, id), id) == tiers
  {
    RemoveAbsentTier(tiers, id);
    if DraftComplete(d) {
      var t := Tier(id, d.title, d.amount, d.description);
      RemoveTierAppend(tiers, [t], id);
      assert RemoveTierFrom([t], id) == [];
    }
  }

  /** Adding under a fresh id keeps tier ids unique within the campaign. */
  lemma AddTierKeepsIdsDistinct(tiers: seq<Tier>, d: TierDraft, id: string)
    requires TierIdsDistinct(tiers) && !HasTierId(tiers, id)
    ensures TierIdsDistinct(AddTierTo(tiers, d, id))
  {
  }

  /** Removal keeps tier ids unique within the campaign. */
  lemma {:induction false} RemoveTierKeepsIdsDistinct(tiers: seq<Tier>, id: string)
    requires TierIdsDistinct(tiers)
    ensures TierIdsDistinct(RemoveTierFrom(tiers, id))
  {
    if tiers != [] {
      var rest := RemoveTierFrom(tiers[1..], id);
      assert TierIdsDistinct(tiers[1..]) by {
        forall i, j | 0 <= i < j < |tiers[1..]|
          ensures tiers[1..][i].id != tiers[1..][j].id
        {
          assert tiers[1..][i] == tiers[i + 1] && tiers[1..][j] == tiers[j + 1];
        }
      }
      RemoveTierKeepsIdsDistinct(tiers[1..], id);
      if tiers[0].id != id {
        forall k | 0 <= k < |rest|
          ensures rest[k].id != tiers[0].id
        {
          RemoveTierMembers(tiers[1..], id, rest[k]);
          var j :| 0 <= j < |tiers[1..]| && tiers[1..][j] == rest[k];
          assert tiers[j + 1] == rest[k];
        }
        var r := [tiers[0]] + rest;
        assert RemoveTierFrom(tiers, id) == r;
        forall i, j | 0 <= i < j < |r|
          ensures r[i].id != r[j].id
        {
          if i == 0 {
            assert r[j] == rest[j - 1];
          } else {
            assert r[i] == rest[i - 1] && r[j] == rest[j - 1];
          }
        }
      } else {
        assert RemoveTierFrom(tiers, id) == rest;
      }
    }
  }

  // ---------------------------------------------------------------------
  // The wizard's component state
  // ---------------------------------------------------------------------

  class Wizard {
    var step: int
    var category: Category
    var idea: string
    var goal: string
    var targetAmount: int
    var tiers: seq<Tier>
    var newTier: TierDraft
    var aiData: Option<AiResponse>
    var imageUrl: string

    /** The step is always one of the five stages. */
    ghost predicate Valid()
      reads this
    {
      1 <= step <= 5
    }

    constructor ()
      ensures Valid() && step == 1
      ensures category == Technology && idea == "" && goal == "" && targetAmount == 10000
      ensures tiers == [EarlyBird] && newTier == EmptyDraft
      ensures aiData == None && imageUrl == ""
    {
      step := 1;
      category := Technology;
      idea := "";
      goal := "";
      targetAmount := 10000;
      tiers := [EarlyBird];
      newTier := EmptyDraft;
      aiData := None;
      imageUrl := "";
    }

    /** The concept form's inputs, shown at step 1. */
    method EditConcept(category': Category, idea': string, goal': string, targetAmount': int)
      requires Valid() && step == 1
      modifies this`category, this`idea, this`goal, this`targetAmount
      ensures Valid() && step == old(step)
      ensures category == category' && idea == idea' && goal == goal' && targetAmount == targetAmount'
    {
      category, idea, goal, targetAmount := category', idea', goal', targetAmount';
    }

    /**
     * Generates the narrative. Without an idea or a goal nothing happens;
     * otherwise the reply is kept and the wizard moves from step 1 to step 2.
     * The service answers a failed generation with a fallback narrative, so
     * a failure arrives here as `Some`; `None` stands for a rejected promise,
     * which the service as written never produces, and changes nothing.
     */
    method HandleAIGenerate(reply: Option<AiResponse>)
      requires Valid() && step == 1
      modifies this`aiData, this`step
      ensures Valid() && old(step) <= step
      ensures idea == "" || goal == "" ==> aiData == old(aiData) && step == old(step)
      ensures idea != "" && goal != "" && reply.Some? ==> aiData == reply && step == 2
      ensures reply.None? ==> aiData == old(aiData) && step == old(step)
    {
      if idea == "" || goal == "" {
        return;
      }
      match reply
      case None =>
      case Some(data) =>
        aiData := Some(data);
        step := 2;
    }

    /** The narrative editor's inputs, shown at step 2 when a narrative exists. */
    method EditNarrative(title: string, tagline: string, description: string)
      requires Valid() && step == 2 && aiData.Some?
      modifies this`aiData
      ensures Valid()
      ensures aiData == Some(old(aiData).value.(title := title, tagline := tagline, description := description))
    {
      aiData := Some(aiData.value.(title := title, tagline := tagline, description := description));
    }

    /**
     * Generates (or regenerates) the image from the first 100 characters of
     * the description, which it returns as the request it sends. Without a
     * narrative nothing happens; otherwise the image is kept and the wizard
     * is at step 3. A failed generation arrives as `Some` of a placeholder URL;
     * `None` stands for a rejected promise, which never happens as written,
     * and changes nothing.
     */
    method HandleImageGenerate(reply: Option<string>) returns (prompt: Option<string>)
      requires Valid() && (step == 2 || step == 3)
      modifies this`imageUrl, this`step
      ensures Valid() && old(step) <= step
      ensures prompt.Some? <==> aiData.Some?
      ensures aiData.Some? ==> |prompt.value| <= 100 && prompt.value <= aiData.value.description
      ensures aiData.Some? && |aiData.value.description| >= 100 ==> |prompt.value| == 100
      ensures aiData.Some? && |aiData.value.description| < 100 ==> prompt.value == aiData.value.description
      ensures aiData.None? || reply.None? ==> imageUrl == old(imageUrl) && step == old(step)
      ensures aiData.Some? && reply.Some? ==> imageUrl == reply.value && step == 3
    {
      if aiData.None? {
        return None;
      }
      var d := aiData.value.description;
      prompt := Some(if |d| <= 100 then d else d[..100]);
      match reply
      case None =>
      case Some(url) =>
        imageUrl := url;
        step := 3;
    }

    /** "Next: Reward Tiers", shown at step 3. */
    method ContinueToRewards()
      requires Valid() && step == 3
      modifies this`step
      ensures Valid() && step == 4
    {
      step := 4;
    }

    /** "Next: Final Review", shown at step 4. */
    method ContinueToReview()
      requires Valid() && step == 4
      modifies this`step
      ensures Valid() && step == 5
    {
      step := 5;
    }

    /** The add-tier form's inputs. */
    method EditDraft(d: TierDraft)
      requires Valid()
      modifies this`newTier
      ensures Valid() && newTier == d
    {
      newTier := d;
    }

    /** Adds the draft under a fresh id when the guard accepts it, then clears the form. */
    method AddTier(freshId: string)
      requires Valid()
      modifies this`tiers, this`newTier
      ensures Valid()
      ensures tiers == AddTierTo(old(tiers), old(newTier), freshId)
      ensures newTier == if DraftComplete(old(newTier)) then EmptyDraft else old(newTier)
    {
      if newTier.title == "" || newTier.amount == 0 || newTier.description == "" {
        return;
      }
      tiers := tiers + [Tier(freshId, newTier.title, newTier.amount, newTier.description)];
      newTier := EmptyDraft;
    }

    /** Removes every tier with `id`. */
    method RemoveTier(id: string)
      requires Valid()
      modifies this`tiers
      ensures Valid()
      ensures tiers == RemoveTierFrom(old(tiers), id)
    {
      tiers := RemoveTierFrom(tiers, id);
    }

    /**
     * Launches: without a narrative nothing happens; otherwise a campaign is
     * built from the wizard's state, with nothing raised yet, and saved.
     */
    method HandleLaunch(store: Store.CampaignStore, id: string, deadline: string, createdAt: string,
                        successProbability: int)
      returns (launched: Option<Campaign>)
      requires Valid()
      requires 70 <= successProbability < 95
      modifies store
      ensures Valid()
      ensures launched.Some? <==> aiData.Some?
      ensures launched.None? ==> store.slot == old(store.slot) && store.seedData == old(store.seedData)
      ensures launched.Some? ==>
        var c := launched.value;
        var data := aiData.value;
        && c.id == id && c.creatorName == CurrentUser
        && c.title == data.title && c.tagline == data.tagline && c.description == data.description
        && c.category == category && c.targetAmount == targetAmount
        && c.imageUrl == (if imageUrl == "" then PlaceholderImage else imageUrl)
        && c.currentAmount == 0 && c.status == Active && c.tiers == tiers
        && c.deadline == deadline && c.createdAt == createdAt
        && c.aiAnalysis == Some(AiAnalysis(data.targetAudience, data.marketingCopy, successProbability))
      ensures launched.Some? ==> store.slot == Some(Store.Upsert(old(store.Stored()), launched.value))
      ensures launched.Some? ==>
        store.seedData == if old(store.slot).None? then Store.Upsert(old(store.seedData), launched.value) else old(store.seedData)
      ensures launched.Some? ==> Store.FindById(store.Stored(), id) == launched
    {
      if aiData.None? {
        return None;
      }
      var data := aiData.value;
      var c := Campaign(
        id, CurrentUser, data.title, data.tagline, data.description, category,
        if imageUrl == "" then PlaceholderImage else imageUrl,
        targetAmount, 0, deadline, createdAt, Active, tiers,
        Some(AiAnalysis(data.targetAudience, data.marketingCopy, successProbability)));
      store.SaveCampaign(c);
      Store.UpsertFindsSaved(old(store.Stored()), c);
      launched := Some(c);
    }
  }

  /** Walking through the first four stages visits the steps 1, 2, 3, 4, 5 in order and ends ready to launch. */
  method WalkToReview(category: Category, idea: string, goal: string, narrative: AiResponse, image: string)
    returns (w: Wizard, steps: seq<int>)
    requires idea != "" && goal != ""
    ensures fresh(w) && w.Valid()
    ensures steps == [1, 2, 3, 4, 5] && w.step == 5
    ensures w.aiData == Some(narrative) && w.imageUrl == image && w.tiers == [EarlyBird]
  {
    w := new Wizard();
    var s1 := w.step;
    w.EditConcept(category, idea, goal, 25000);
    w.HandleAIGenerate(Some(narrative));
    var s2 := w.step;
    var _ := w.HandleImageGenerate(Some(image));
    var s3 := w.step;
    w.ContinueToRewards();
    var s4 := w.step;
    w.ContinueToReview();
    steps := [s1, s2, s3, s4, w.step];
  }

  /** A full pass through the wizard launches a campaign with nothing raised, which the store then finds. */
  method LaunchFlow(store: Store.CampaignStore, category: Category, idea: string, goal: string,
                    narrative: AiResponse, image: string, id: string)
    returns (steps: seq<int>, launched: Option<Campaign>)
    requires idea != "" && goal != ""
    modifies store
    ensures steps == [1, 2, 3, 4, 5]
    ensures launched.Some? && launched.value.currentAmount == 0 && launched.value.tiers == [EarlyBird]
    ensures Store.FindById(store.Stored(), id) == launched
  {
    var w;
    w, steps := WalkToReview(category, idea, goal, narrative, image);
    launched := w.HandleLaunch(store, id, "deadline", "now", 80);
  }
}

/**
 * The creator dashboard: a local copy of the campaign list, the selected
 * campaign, and an edit dialog whose partial record is merged over the
 * selected campaign and saved.
 */
module Dashboard {
  import opened Types
  import Store

  /** The edit dialog's partial record: only these five fields can be edited. */
  datatype EditForm = EditForm(
    title: Option<string>,
    tagline: Option<string>,
    description: Option<string>,
    targetAmount: Option<int>,
    category: Option<Category>)

  const EmptyForm: EditForm := EditForm(None, None, None, None, None)

  /** One keystroke or selection in the edit dialog. */
  datatype FieldChange =
    | SetTitle(title: string)
    | SetTagline(tagline: string)
    | SetDescription(description: string)
    | SetTargetAmount(amount: int)
    | SetCategory(category: Category)

  /** The form filled in from a campaign when the dialog opens. */
  function FormOf(c: Campaign): EditForm
  {
    EditForm(Some(c.title), Some(c.tagline), Some(c.description), Some(c.targetAmount), Some(c.category))
  }

  /** The form after one change; the other fields keep their values. */
  function ApplyChange(form: EditForm, change: FieldChange): EditForm
  {
    match change
    case SetTitle(v) => form.(title := Some(v))
    case SetTagline(v) => form.(tagline := Some(v))
    case SetDescription(v) => form.(description := Some(v))
    case SetTargetAmount(v) => form.(targetAmount := Some(v))
    case SetCategory(v) => form.(category := Some(v))
  }

  function Override<T>(o: Option<T>, current: T): T
  {
    match o
    case Some(v) => v
    case None => current
  }

  /**
   * The form spread over the campaign. The target amount is always taken
   * from the form: converting an absent one would give NaN, and every caller
   * has it filled in.
   */
  function Merge(c: Campaign, form: EditForm): Campaign
    requires form.targetAmount.Some?
  {
    c.(title := Override(form.title, c.title),
       tagline := Override(form.tagline, c.tagline),
       description := Override(form.description, c.description),
       category := Override(form.category, c.category),
       targetAmount := form.targetAmount.value)
  }

  /** The local list with every entry carrying `updated`'s id replaced by it. */
  function ReplaceById(cs: seq<Campaign>, updated: Campaign): seq<Campaign>
  {
    seq(|cs|, k requires 0 <= k < |cs| => if cs[k].id == updated.id then updated else cs[k])
  }

  /**
   * The merge takes each field the form has and keeps every other field of
   * the campaign: id, creator, image, amounts raised, dates, status, tiers
   * and analysis are never edited.
   */
  lemma MergeFields(c: Campaign, form: EditForm)
    requires form.targetAmount.Some?
    ensures var r := Merge(c, form);
      && r.title == (if form.title.Some? then form.title.value else c.title)
      && r.tagline == (if form.tagline.Some? then form.tagline.value else c.tagline)
      && r.description == (if form.description.Some? then form.description.value else c.description)
      && r.category == (if form.category.Some? then form.category.value else c.category)
      && r.targetAmount == form.targetAmount.value
    ensures var r := Merge(c, form);
      && r.id == c.id && r.creatorName == c.creatorName && r.imageUrl == c.imageUrl
      && r.currentAmount == c.currentAmount && r.deadline == c.deadline && r.createdAt == c.createdAt
      && r.status == c.status && r.tiers == c.tiers && r.aiAnalysis == c.aiAnalysis
  {
  }

  /** Saving the dialog unchanged gives back the campaign it was opened on. */
  lemma MergeUnchangedForm(c: Campaign)
    ensures Merge(c, FormOf(c)) == c
  {
  }

  /** Every change keeps a filled-in target amount filled in. */
  lemma ApplyChangeKeepsTarget(form: EditForm, change: FieldChange)
    ensures form.targetAmount.Some? ==> ApplyChange(form, change).targetAmount.Some?
    ensures change.SetTargetAmount? ==> ApplyChange(form, change).targetAmount == Some(change.amount)
  {
  }

  /** Replacing keeps the length and touches only the entries with the updated id. */
  lemma ReplaceByIdShape(cs: seq<Campaign>, updated: Campaign)
    ensures |ReplaceById(cs, updated)| == |cs|
    ensures forall k :: 0 <= k < |cs| && cs[k].id != updated.id ==> ReplaceById(cs, updated)[k] == cs[k]
    ensures forall k :: 0 <= k < |cs| && cs[k].id == updated.id ==> ReplaceById(cs, updated)[k] == updated
    ensures !Store.HasId(cs, updated.id) ==> ReplaceById(cs, updated) == cs
  {
  }

  /**
   * With distinct ids and the id present, the local replacement and the
   * store's upsert produce the same list: the dashboard's copy stays in step
   * with what was saved.
   */
  lemma ReplaceByIdIsUpsert(cs: seq<Campaign>, updated: Campaign)
    requires Store.IdsDistinct(cs) && Store.HasId(cs, updated.id)
    ensures ReplaceById(cs, updated) == Store.Upsert(cs, updated)
  {
    Store.UpsertByIndex(cs, updated);
    var i := Store.FindIndex(cs, updated.id).value;
    var r := ReplaceById(cs, updated);
    assert |r| == |cs[i := updated]|;
    forall k | 0 <= k < |cs|
      ensures r[k] == cs[i := updated][k]
    {
      if k != i {
        assert cs[k].id != cs[i].id by {
          if k < i {
            assert cs[k].id != cs[i].id;
          } else {
            assert cs[i].id != cs[k].id;
          }
        }
      }
    }
  }

  class DashboardPage {
    var campaigns: seq<Campaign>
    var selected: Option<Campaign>
    var isEditing: bool
    var editForm: EditForm

    /** While the dialog is open its target amount is filled in. */
    ghost predicate Valid()
      reads this
    {
      isEditing ==> editForm.targetAmount.Some?
    }

    constructor ()
      ensures Valid()
      ensures campaigns == [] && selected == None && !isEditing && editForm == EmptyForm
    {
      campaigns := [];
      selected := None;
      isEditing := false;
      editForm := EmptyForm;
    }

    /** On load: read the store and select the first campaign, if there is one. */
    method Load(store: Store.CampaignStore)
      requires Valid()
      modifies this`campaigns, this`selected, store`slot
      ensures Valid()
      ensures campaigns == old(store.Stored()) && store.slot == Some(campaigns)
      ensures |campaigns| > 0 ==> selected == Some(campaigns[0])
      ensures |campaigns| == 0 ==> selected == old(selected)
    {
      var all := store.GetCampaigns();
      campaigns := all;
      if |all| > 0 {
        selected := Some(all[0]);
      }
    }

    /** The campaign drop-down: selects the first listed campaign with `id`; an unknown id changes nothing. */
    method Select(id: string)
      requires Valid()
      modifies this`selected
      ensures Valid()
      ensures selected == (if Store.HasId(campaigns, id) then Store.FindById(campaigns, id) else old(selected))
    {
      var c := Store.FindById(campaigns, id);
      if c.Some? {
        selected := c;
      }
    }

    /** Opens the dialog on the selected campaign's five editable fields. */
    method HandleEditClick()
      requires Valid()
      modifies this`editForm, this`isEditing
      ensures Valid()
      ensures selected.Some? ==> editForm == FormOf(selected.value) && isEditing
      ensures selected.None? ==> editForm == old(editForm) && isEditing == old(isEditing)
    {
      if selected.Some? {
        editForm := FormOf(selected.value);
        isEditing := true;
      }
    }

    /** A keystroke or selection in the open dialog. */
    method ChangeField(change: FieldChange)
      requires Valid() && isEditing
      modifies this`editForm
      ensures Valid()
      ensures editForm == ApplyChange(old(editForm), change)
    {
      ApplyChangeKeepsTarget(editForm, change);
      editForm := ApplyChange(editForm, change);
    }

    /** Closes the dialog without saving. */
    method CancelEdit()
      requires Valid()
      modifies this`isEditing
      ensures Valid() && !isEditing
    {
      isEditing := false;
    }

    /**
     * Saves the dialog: nothing happens without a selection; otherwise the
     * merged campaign is saved to the store, replaces its entry in the local
     * list, becomes the selection, and the dialog closes.
     */
    method HandleSaveEdit(store: Store.CampaignStore)
      requires Valid() && isEditing
      modifies this, store
      ensures Valid()
      ensures old(selected).None? ==>
        && store.slot == old(store.slot) && store.seedData == old(store.seedData)
        && campaigns == old(campaigns) && selected == old(selected) && isEditing && editForm == old(editForm)
      ensures old(selected).Some? ==>
        var updated := Merge(old(selected).value, old(editForm));
        && store.slot == Some(Store.Upsert(old(store.Stored()), updated))
        && store.seedData == (if old(store.slot).None? then Store.Upsert(old(store.seedData), updated) else old(store.seedData))
        && campaigns == ReplaceById(old(campaigns), updated)
        && selected == Some(updated)
        && !isEditing && editForm == old(editForm)
      ensures old(selected).Some? && old(selected).value in old(campaigns)
              && old(campaigns) == old(store.Stored()) && Store.IdsDistinct(old(campaigns))
              ==> campaigns == store.Stored()
    {
      if selected.None? {
        return;
      }
      var updated := Merge(selected.value, editForm);
      ghost var before := store.Stored();
      if selected.value in campaigns && campaigns == before && Store.IdsDistinct(campaigns) {
        assert updated.id == selected.value.id;
        ReplaceByIdIsUpsert(campaigns, updated);
      }
      store.SaveCampaign(updated);
      campaigns := ReplaceById(campaigns, updated);
      selected := Some(updated);
      isEditing := false;
    }
  }
}

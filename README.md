# Crowdfunding campaign store and pages: a Dafny model

This project models the core of a small crowdfunding web application. Creators
describe a project in a five-step wizard, which turns the description into a
campaign with reward tiers. Visitors browse and search the campaigns and back
one by clicking a reward tier. Creators can edit a campaign's headline fields
from a dashboard.

All campaigns live in one browser storage slot, holding the whole serialized
collection. Every operation reads the whole collection back, and every change
writes the whole collection out again. While the slot is empty, the
collection is a built-in seed of two sample campaigns.

The model has these modules:

- `Types` holds the records: categories, reward tiers, campaigns and users,
  plus the narrative returned by the text-generation service.
- `Store` holds the collection operations as pure functions on sequences
  (`FindIndex`, `FindById`, `Upsert`, `Contribute`) and the lemmas about them.
  It also holds the class `CampaignStore`, whose fields are the storage slot
  and the in-memory seed array. Its methods update those fields as the source
  does, including one quirk:
  - On first use, `getCampaigns` returns the seed array itself rather than a
    copy.
  - The first save or contribution on an empty slot therefore also changes
    the seed array in place.
- `Home` models the funding percentage on each card (rounded half up, capped
  at 100, with a zero target treated as JavaScript does) and the
  case-insensitive search filter.
- `CreateCampaign` models the wizard's state as a class: step, concept form,
  tiers, the narrative it generated, the image, and launch.
- `Dashboard` models the dashboard's state: the local list, the selection,
  and the edit dialog with its merge and save.
- `CampaignDetail` models the campaign page: its state, the funding bar, and
  backing a campaign through a reward tier.
- `Seqs` defines order-preserving subsequences. The search and tier-removal lemmas use it.

## Model

| member | source | states |
|---|---|---|
| Types.CategoryName | types.ts:2-7 | the string each category carries, stored, shown and searched; distinct per category, since Types.CategoryNameRoundTrip reads each one back |
| Types.AllCategories | types.ts:1-8 | the drop-down offers six categories, pairwise distinct |
| Types.AllCategoriesComplete | types.ts:1-8 | every category is among the offered values |
| Types.ParseCategory | types.ts:1-8 | a drop-down value reads back as the category whose string it is; no category has a string that fails to parse |
| Types.CategoryNameRoundTrip | types.ts:1-8 | parsing a category's string gives that category back |
| Types.StatusName | types.ts:29 | a status is persisted as one of "active", "completed", "draft" |
| Types.StatusNameInjective | types.ts:29 | distinct statuses persist as distinct strings |
| Store.FindIndex | services/store.ts:66 | `findIndex`: the reported position carries the id, no earlier position does, and -1 (None) exactly when no entry carries the id |
| Store.FindById | services/store.ts:59-62 | `find`: a result exists exactly when some entry carries the id; it is a stored entry with that id, the first one |
| Store.Upsert | services/store.ts:64-73 | `saveCampaign` on values: replace the first entry with the campaign's id, or append; specified by Store.UpsertByIndex, Store.UpsertShape, Store.UpsertFindsSaved and Store.UpsertKeepsOthers |
| Store.Contribute | services/store.ts:75-82 | `backCampaign` on values: credit the first entry with the id, or change nothing; specified by Store.ContributeByIndex, Store.ContributeIsUpsert and Store.ContributeEffect |
| Store.Credit | services/store.ts:79 | the raised amount grows by exactly `amount` and no other field changes |
| Store.UpsertByIndex | services/store.ts:64-73 | saving replaces the entry at the index `findIndex` reports, or appends when there is none |
| Store.UpsertShape | services/store.ts:64-73 | saving a present id keeps the length and replaces only that entry; saving a new id appends exactly one entry at the end |
| Store.FindIndexAtFirst | services/store.ts:66 | a position with the id and no earlier one is what `findIndex` reports |
| Store.UpsertFindsSaved | services/store.ts:59-73 | after a save, looking up the saved id yields the saved campaign |
| Store.UpsertKeepsOthers | services/store.ts:59-73 | a save leaves the lookup of every other id unchanged |
| Store.FindByIdPastHead | services/store.ts:61 | a lookup skips a first entry that carries another id |
| Store.UpsertKeepsIdsDistinct | services/store.ts:64-73 | saving keeps the stored ids pairwise distinct |
| Store.UpsertIdempotent | services/store.ts:64-73 | saving the same campaign twice equals saving it once |
| Store.ContributeByIndex | services/store.ts:75-82 | backing credits, in place, the entry that `find` locates; an unknown id leaves the collection as it was |
| Store.ContributeIsUpsert | services/store.ts:77-80 | backing a present id equals saving the credited copy of the found campaign |
| Store.ContributeEffect | services/store.ts:75-82 | backing keeps the length; a present id's entry gains exactly `amount` and nothing else changes; no other entry changes; an absent id changes nothing; lookups of other ids are unchanged |
| Store.ContributeAdditive | services/store.ts:75-82 | two contributions to one campaign equal one contribution of their sum |
| Store.ContributeTotal | services/store.ts:75-82 | the collection's total rises by exactly `amount` when the id is present, and by nothing otherwise |
| Store.ContributeKeepsIdsDistinct | services/store.ts:75-82 | backing keeps the stored ids pairwise distinct |
| Store.SeedData | services/store.ts:6-48 | the two sample campaigns, field for field, each with its own deadline and creation time; their shape is stated by Store.SeedShape |
| Store.SeedShape | services/store.ts:6-48 | the seed is two campaigns with ids "1" and "2"; the first has raised 34500 and carries an analysis; the second does not; the tier ids repeat across campaigns |
| Store.SeedContributionScenario | services/store.ts:6-48 | on the seed, campaign "1" is found at 34500; a 500 contribution takes it to 35000; a contribution to an unknown id changes nothing |
| Store.CampaignStore.constructor | services/store.ts:3-48 | a store starts with the given slot content and with the seed array |
| Store.CampaignStore.Stored | services/store.ts:50-56 | the collection `getCampaigns` yields: the slot's content, or the seed array while the slot is empty; GetCampaigns states it |
| Store.CampaignStore.GetCampaigns | services/store.ts:50-57 | returns the collection; an empty slot is first filled with the seed, and the seed array itself is what is returned |
| Store.CampaignStore.GetCampaignById | services/store.ts:59-62 | returns the first stored campaign with the id, None when there is none; seeds an empty slot |
| Store.CampaignStore.SaveCampaign | services/store.ts:64-73 | the slot holds the old collection upserted with the campaign; on an empty slot the seed array is changed the same way |
| Store.CampaignStore.BackCampaign | services/store.ts:75-82 | the slot holds the old collection with the contribution applied; on an empty slot the seed array is credited too |
| Store.SeedListedTwice | services/store.ts:50-57 | listing an empty store twice gives the seed both times |
| Store.FirstRunContribution | services/store.ts:50-82 | on an empty store, backing "1" with 500 and then an unknown id leaves 35000 raised on campaign "1" and two campaigns stored |
| Home.RoundHalfUp | pages/Home.tsx:25 | `Math.round`: the integer nearest to x, with halves rounded up |
| Home.CalculateProgress | pages/Home.tsx:24-26 | the percentage never exceeds 100; it is finite unless the target is zero and nothing has been raised or the raised amount is negative |
| Home.RoundedPercentIsQuotient | pages/Home.tsx:25 | for a positive target, rounding 100·current/target equals the integer quotient (200·current + target) div (2·target) |
| Home.ProgressIntegerFormula | pages/Home.tsx:24-26 | for a positive target: the percentage is min(100, that quotient); it is exactly 100 once the target is met; it is the rounded share below the target; it is never negative for a non-negative amount |
| Home.LowerChar | pages/Home.tsx:29-32 | the lowercased character is never an upper-case ASCII letter, and only an upper-case letter is changed |
| Home.Lower | pages/Home.tsx:29-32 | lowercasing keeps the length, leaves no upper-case ASCII letter, and changes no other character |
| Home.LowerIdempotent | pages/Home.tsx:29-32 | lowercasing twice is lowercasing once |
| Home.SearchLowercaseQuery | pages/Home.tsx:28-33 | searching for the lowercased term shows the same campaigns as searching for the term |
| Home.ContainsIffOccurs | pages/Home.tsx:30-32 | `includes` holds exactly when the search term occurs at some position |
| Home.ContainsPrefix | pages/Home.tsx:30-32 | if a term occurs, every prefix of it occurs too |
| Home.Contains | pages/Home.tsx:30-32 | `includes`; specified by Home.ContainsIffOccurs (occurrence at some position) |
| Home.Matches | pages/Home.tsx:29-32 | the filter predicate: the lowercase term occurs in the lowercase title, description or category; used by Home.SearchMembers and Home.SearchCounts |
| Home.Search | pages/Home.tsx:28-33 | the filtered list; it is never longer than the list; specified by Home.SearchMembers, Home.SearchCounts and Home.SearchIsSubsequence |
| Home.SearchCounts | pages/Home.tsx:28-33 | a matching campaign is shown as many times as it is listed, and a non-matching one never |
| Home.SearchMembers | pages/Home.tsx:28-33 | a campaign is shown exactly when it is listed and its lowercase title, description or category contains the lowercase term |
| Home.SearchIsSubsequence | pages/Home.tsx:28-33 | the result keeps list order, as an order-preserving subsequence of the list |
| Home.SearchEmptyQuery | pages/Home.tsx:28-33 | an empty search box shows every campaign, in order |
| Home.SearchCaseInsensitive | pages/Home.tsx:28-33 | terms that lowercase alike show the same campaigns |
| Home.LowerPrefix | pages/Home.tsx:29 | lowercasing keeps prefixes |
| Home.SearchNarrows | pages/Home.tsx:28-33 | typing more characters only narrows the result, and keeps it in order |
| CreateCampaign.AddTierEffect | pages/CreateCampaign.tsx:105-114 | a complete draft is appended as one tier with the fresh id and the draft's fields; an incomplete draft changes nothing |
| CreateCampaign.RemoveTierMembers | pages/CreateCampaign.tsx:116-118 | removal keeps exactly the tiers whose id differs |
| CreateCampaign.RemoveTierOrder | pages/CreateCampaign.tsx:116-118 | the remaining tiers keep their order, and none of them carries the removed id |
| CreateCampaign.RemoveAbsentTier | pages/CreateCampaign.tsx:116-118 | removing an id no tier carries changes nothing |
| CreateCampaign.RemoveTierAppend | pages/CreateCampaign.tsx:116-118 | removal distributes over concatenation |
| CreateCampaign.AddThenRemoveTier | pages/CreateCampaign.tsx:105-118 | removing a tier just added under a fresh id gives the original list back |
| CreateCampaign.AddTierKeepsIdsDistinct | pages/CreateCampaign.tsx:105-114 | adding under a fresh id keeps the tier ids distinct |
| CreateCampaign.RemoveTierKeepsIdsDistinct | pages/CreateCampaign.tsx:116-118 | removal keeps the tier ids distinct |
| CreateCampaign.DraftComplete | pages/CreateCampaign.tsx:106 | the add-tier guard: title, amount and description all truthy; used by CreateCampaign.AddTierEffect |
| CreateCampaign.AddTierTo | pages/CreateCampaign.tsx:105-114 | the tier list after adding a draft; specified by CreateCampaign.AddTierEffect |
| CreateCampaign.RemoveTierFrom | pages/CreateCampaign.tsx:116-118 | the tier list after removing an id; never longer than the list; specified by CreateCampaign.RemoveTierMembers, CreateCampaign.RemoveTierCounts and CreateCampaign.RemoveTierOrder |
| CreateCampaign.RemoveTierCounts | pages/CreateCampaign.tsx:116-118 | removal keeps each tier with another id as many times as it was listed, and no tier with the id |
| CreateCampaign.Wizard.constructor | pages/CreateCampaign.tsx:10-27 | the wizard starts at step 1 on Technology with an empty idea and goal, a target of 10000, one Early Bird tier, an empty draft, and no narrative or image |
| CreateCampaign.Wizard.EditConcept | pages/CreateCampaign.tsx:179-213 | the concept inputs set category, idea, goal and target |
| CreateCampaign.Wizard.HandleAIGenerate | pages/CreateCampaign.tsx:77-89 | without an idea or a goal nothing happens; otherwise the reply (a fallback narrative when generation fails) is kept and the wizard moves to step 2; `None`, a rejected promise the service never produces, changes nothing |
| CreateCampaign.Wizard.EditNarrative | pages/CreateCampaign.tsx:239-257 | the narrative inputs change its title, tagline and description only |
| CreateCampaign.Wizard.HandleImageGenerate | pages/CreateCampaign.tsx:91-103 | the prompt is the first 100 characters of the description; without a narrative nothing happens; otherwise the image (a placeholder URL when generation fails) is kept and the wizard moves to step 3; `None`, a rejected promise the service never produces, changes nothing |
| CreateCampaign.Wizard.ContinueToRewards | pages/CreateCampaign.tsx:302 | the wizard moves from step 3 to step 4 |
| CreateCampaign.Wizard.ContinueToReview | pages/CreateCampaign.tsx:371 | the wizard moves from step 4 to step 5 |
| CreateCampaign.Wizard.EditDraft | pages/CreateCampaign.tsx:338-355 | the draft inputs set the new-tier draft |
| CreateCampaign.Wizard.AddTier | pages/CreateCampaign.tsx:105-114 | the tiers become the add-tier result, and the draft is cleared exactly when it was accepted |
| CreateCampaign.Wizard.RemoveTier | pages/CreateCampaign.tsx:116-118 | the tiers become those with another id |
| CreateCampaign.Wizard.HandleLaunch | pages/CreateCampaign.tsx:120-146 | without a narrative nothing is saved; otherwise the campaign built from the wizard is saved (nothing raised, active, placeholder image when none, analysis with the given probability) and the store then finds it by its id; on an empty slot the seed array is changed the same way |
| CreateCampaign.WalkToReview | pages/CreateCampaign.tsx:77-103 | generating the narrative and the image, then continuing twice, visits steps 1 to 5 in order |
| CreateCampaign.LaunchFlow | pages/CreateCampaign.tsx:120-146 | a full pass launches a campaign with nothing raised and the Early Bird tier, which the store then finds |
| Dashboard.MergeFields | pages/Dashboard.tsx:58-63 | the saved campaign takes each field the form holds, and the target from the form; id, creator, image, amounts, dates, status, tiers and analysis are kept |
| Dashboard.MergeUnchangedForm | pages/Dashboard.tsx:42-63 | saving the dialog unchanged gives back the campaign it was opened on |
| Dashboard.ApplyChangeKeepsTarget | pages/Dashboard.tsx:223-267 | an edit keeps a filled-in target filled in; editing the target sets it |
| Dashboard.ReplaceByIdShape | pages/Dashboard.tsx:68 | the local update keeps the length and replaces exactly the entries with the saved id; with no such entry the list is unchanged |
| Dashboard.ReplaceByIdIsUpsert | pages/Dashboard.tsx:65-68 | with distinct ids and the id present, the local update equals the store's upsert |
| Dashboard.FormOf | pages/Dashboard.tsx:44-50 | the five fields the dialog opens with; Dashboard.MergeUnchangedForm states that saving it unchanged gives the campaign back |
| Dashboard.ApplyChange | pages/Dashboard.tsx:223-267 | one dialog input; specified by Dashboard.ApplyChangeKeepsTarget |
| Dashboard.Merge | pages/Dashboard.tsx:58-63 | the form spread over the campaign, with the numeric target; specified by Dashboard.MergeFields |
| Dashboard.ReplaceById | pages/Dashboard.tsx:68 | the local `map` that swaps in the saved campaign; specified by Dashboard.ReplaceByIdShape and Dashboard.ReplaceByIdIsUpsert |
| Dashboard.DashboardPage.constructor | pages/Dashboard.tsx:9-16 | the page starts with no campaigns, no selection and the dialog closed |
| Dashboard.DashboardPage.Load | pages/Dashboard.tsx:18-22 | the local list is the stored collection, and its first campaign is selected when there is one |
| Dashboard.DashboardPage.Select | pages/Dashboard.tsx:94-97 | picking an id selects the first listed campaign with that id; an unknown id changes nothing |
| Dashboard.DashboardPage.HandleEditClick | pages/Dashboard.tsx:42-53 | the dialog opens on the selected campaign's five editable fields; with no selection nothing happens |
| Dashboard.DashboardPage.ChangeField | pages/Dashboard.tsx:223-267 | each input changes its own form field |
| Dashboard.DashboardPage.CancelEdit | pages/Dashboard.tsx:212 | the dialog closes |
| Dashboard.DashboardPage.HandleSaveEdit | pages/Dashboard.tsx:55-71 | with no selection nothing happens; otherwise the merged campaign is upserted into the store, replaces its local entry and becomes the selection, and the dialog closes; on an empty slot the seed array is changed the same way; when the local list matched the store, it still matches |
| CampaignDetail.DisplayedProgress | pages/CampaignDetail.tsx:29 | the bar never exceeds 100; it is finite unless the target is zero and nothing, or a negative amount, has been raised |
| CampaignDetail.DisplayedProgressValues | pages/CampaignDetail.tsx:29 | for a positive target the bar is full once the target is met, shows the exact share below it, and is never negative for a non-negative amount |
| CampaignDetail.CardProgressIsRoundedBar | pages/CampaignDetail.tsx:29 | the percentage on the browse cards is this bar's width rounded half up |
| CampaignDetail.DetailPage.constructor | pages/CampaignDetail.tsx:9 | the page starts with no campaign |
| CampaignDetail.DetailPage.Load | pages/CampaignDetail.tsx:13-17 | with a non-empty id, the page shows the store's lookup of it; without one, or with an empty one, nothing is loaded |
| CampaignDetail.DetailPage.HandleBack | pages/CampaignDetail.tsx:19-25 | without a campaign nothing happens; otherwise the store records the contribution and the local copy is credited by the same amount; on an empty slot the seed array is credited too; a page that showed the store's entry still does |
| CampaignDetail.DetailPage.SelectTier | pages/CampaignDetail.tsx:107 | clicking a tier contributes exactly that tier's amount, and the local copy becomes the campaign credited by it; on an empty slot the seed array is credited too |
| CampaignDetail.BackAfterLoad | pages/CampaignDetail.tsx:13-25 | opening a campaign and backing it leaves the page showing exactly what the store then holds |

## Left out

- The text- and image-generation services (services/gemini.ts) are not part of this model. Their replies are parameters. A failed generation arrives as `Some` of the service's fallback (a stock narrative, or a placeholder image URL). `None` stands for a rejected promise, which the service as written never produces.
- The "inspire me" handlers are left out. They call no service: they pick, with `Math.random`, from fixed lists. On the home page the pick becomes the search term, which Home.Search covers for any term. In the wizard, at step 1, a fixed template sets category, idea, goal and target, which CreateCampaign.Wizard.EditConcept covers for any values.
- The dashboard's performance analysis is left out. It only calls the generation service and shows its reply.
- Navigation, the navigation bar, rendering, loading flags, alerts, the success banner and its timer are left out. They change no modelled state.
- Clock readings (`Date.now`, the seed's deadlines and creation time) are parameters. They include the fresh ids of tiers and campaigns.
- `Math.random` is a parameter. Its range, 70 to 94, is a precondition of `CreateCampaign.Wizard.HandleLaunch`.
- JSON serialization is taken to be the identity, so the slot holds the collection itself.
- Storage failures and malformed stored text are not modelled.
- Asynchronous interleavings are not modelled. Each handler runs to completion, with the service's reply already known.
- Amounts are unbounded integers. Floating-point rounding and precision are not modelled. Percentages are exact rationals.
- `Number(...)` conversions of form inputs are taken to give integers. The NaN that an empty or malformed input would give is not modelled.
- `toLocaleString` formatting is not modelled.
- Home.Lower: lowercasing is modelled on ASCII letters only. Unicode case mapping is not modelled.
- Dashboard.Merge requires the form's target amount to be filled in. The dialog can only be saved after `handleEditClick` has filled it. An absent one would convert to NaN.
- CreateCampaign.Wizard: six handlers require the step at which their inputs or button are rendered: EditConcept, HandleAIGenerate, EditNarrative, HandleImageGenerate, ContinueToRewards and ContinueToReview. Calls to them at other steps are not modelled. EditDraft, AddTier, RemoveTier and HandleLaunch accept any step.
- Types.User is declared but no operation uses it.
- CampaignDetail.BackAfterLoad requires a non-empty id. The route parameter it stands for is never empty.
- Home.LowerChar: maps ASCII letters only. Unicode case mapping is not modelled.
- CreateCampaign.Wizard.HandleImageGenerate: the prompt keeps the first 100 characters. The source's `substring(0, 100)` counts UTF-16 code units, which differ from characters outside the Basic Multilingual Plane.

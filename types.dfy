/**
 * The domain records of the crowdfunding application: categories, reward
 * tiers, campaigns and users, together with the structured reply of the
 * text-generation service that the creation wizard consumes.
 */
module Types {

  datatype Option<+T> = None | Some(value: T)

  /** The closed set of project categories. */
  datatype Category = Technology | Art | Games | Film | Music | Other

  /** The string value each category carries; shown to users and matched by the search box. */
  function CategoryName(c: Category): string
  {
    match c
    case Technology => "Technology"
    case Art => "Art"
    case Games => "Games"
    case Film => "Film"
    case Music => "Music"
    case Other => "Other"
  }

  /** The option values of the category drop-downs, in declaration order. */
  function AllCategories(): (r: seq<Category>)
    ensures |r| == 6
    ensures forall i, j :: 0 <= i < j < |r| ==> r[i] != r[j]
  {
    [Technology, Art, Games, Film, Music, Other]
  }

  /** Every category is offered. */
  lemma AllCategoriesComplete(c: Category)
    ensures c in AllCategories()
  {
    match c
    case Technology => assert AllCategories()[0] == c;
    case Art => assert AllCategories()[1] == c;
    case Games => assert AllCategories()[2] == c;
    case Film => assert AllCategories()[3] == c;
    case Music => assert AllCategories()[4] == c;
    case Other => assert AllCategories()[5] == c;
  }

  /** Reads back the category a drop-down option value stands for. */
  function ParseCategory(s: string): (r: Option<Category>)
    ensures r.Some? ==> CategoryName(r.value) == s
    ensures r.None? ==> forall c: Category :: CategoryName(c) != s
  {
    if s == "Technology" then Some(Technology)
    else if s == "Art" then Some(Art)
    else if s == "Games" then Some(Games)
    else if s == "Film" then Some(Film)
    else if s == "Music" then Some(Music)
    else if s == "Other" then Some(Other)
    else None
  }

  /** Every category survives the trip through its option value. */
  lemma CategoryNameRoundTrip(c: Category)
    ensures ParseCategory(CategoryName(c)) == Some(c)
  {
  }

  /** A reward pledge level; identified within its own campaign only. */
  datatype Tier = Tier(id: string, title: string, amount: int, description: string)

  /** The cached output of the analysis service attached at creation time. */
  datatype AiAnalysis = AiAnalysis(targetAudience: string, marketingCopy: string, successProbability: int)

  datatype Status = Active | Completed | Draft

  /** The persisted string form of a status. */
  function StatusName(s: Status): (r: string)
    ensures r in {"active", "completed", "draft"}
  {
    match s
    case Active => "active"
    case Completed => "completed"
    case Draft => "draft"
  }

  /** Distinct statuses are persisted as distinct strings. */
  lemma StatusNameInjective(s: Status, t: Status)
    ensures StatusName(s) == StatusName(t) ==> s == t
  {
  }

  /** The aggregate root; `aiAnalysis` is optional. Timestamps are kept as opaque strings. */
  datatype Campaign = Campaign(
    id: string,
    creatorName: string,
    title: string,
    tagline: string,
    description: string,
    category: Category,
    imageUrl: string,
    targetAmount: int,
    currentAmount: int,
    deadline: string,
    createdAt: string,
    status: Status,
    tiers: seq<Tier>,
    aiAnalysis: Option<AiAnalysis>)

  datatype User = User(id: string, name: string, email: string, backedCampaigns: seq<string>)

  /** The reply of the text-generation service: the narrative the wizard lets the creator edit. */
  datatype AiResponse = AiResponse(
    title: string,
    tagline: string,
    description: string,
    marketingCopy: string,
    targetAudience: string)
}

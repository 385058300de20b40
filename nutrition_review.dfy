/** `AiNutritionReviewService`: one stored nutrition review per user and
    evaluation date, generated on the first request and fetched afterwards. */
module NutritionReview {
  import opened Wrappers
  import opened Text
  import opened Json
  import opened Calendar
  import opened Collaborators
  import opened WeeklyStats
  import opened Prompts
  import opened Gemini
  import opened ReviewParsing

  /** The `ai_nutrition_review` row. */
  datatype AiNutritionReview = AiNutritionReview(
    email: string, weekStartDate: Date, evaluationDate: Date,
    summary: string,
    carbohydrateStatus: Option<string>, proteinStatus: Option<string>,
    fatStatus: Option<string>, calorieStatus: Option<string>,
    createdAt: Timestamp)

  /** `NutritionReviewResponse`; every field but the two dates may be null. */
  datatype NutritionReviewResponse = NutritionReviewResponse(
    weekStartDate: Date, evaluationDate: Date,
    summary: Option<string>,
    carbohydrateStatus: Option<string>, proteinStatus: Option<string>,
    fatStatus: Option<string>, calorieStatus: Option<string>,
    createdAt: Option<Timestamp>)

  /** `toResponse`. */
  function ToResponse(review: AiNutritionReview): (r: NutritionReviewResponse)
    ensures r.weekStartDate == review.weekStartDate && r.evaluationDate == review.evaluationDate
    ensures r.summary == Some(review.summary) && r.createdAt == Some(review.createdAt)
    ensures r.carbohydrateStatus == review.carbohydrateStatus && r.proteinStatus == review.proteinStatus
    ensures r.fatStatus == review.fatStatus && r.calorieStatus == review.calorieStatus
  {
    NutritionReviewResponse(
      review.weekStartDate, review.evaluationDate,
      Some(review.summary),
      review.carbohydrateStatus, review.proteinStatus, review.fatStatus, review.calorieStatus,
      Some(review.createdAt))
  }

  /** A row fit to be stored under `key`: its own email and evaluation date,
      the Monday of that date's week, and a non-blank summary. */
  predicate Stored(key: (string, Date), review: AiNutritionReview) {
    && review.email == key.0
    && review.evaluationDate == key.1
    && review.weekStartDate == WeekStart(key.1)
    && !IsBlank(review.summary)
  }

  /** What `parseAnswer` makes of `answer`, with `tree` for what `readTree`
      did with it and `clock` for `LocalDateTime.now(KST)`. */
  function ReviewOf(email: string, ref: Date, ev: Date, answer: string, tree: ReadTree, clock: Timestamp)
    : (r: Result<AiNutritionReview, ErrorCode>)
    ensures r.Ok? <==> !IsBlank(SummaryOf(answer, tree))
    ensures r.Err? ==> r.error == InternalServerError
    ensures r.Ok? ==> r.value == AiNutritionReview(
      email, WeekStart(ref), ev, SummaryOf(answer, tree),
      FieldOf(tree, "carbohydrateStatus"), FieldOf(tree, "proteinStatus"),
      FieldOf(tree, "fatStatus"), FieldOf(tree, "calorieStatus"), clock)
  {
    var summary := SummaryOf(answer, tree);
    if IsBlank(summary) then Err(InternalServerError)
    else Ok(AiNutritionReview(
      email, WeekStart(ref), ev, summary,
      FieldOf(tree, "carbohydrateStatus"), FieldOf(tree, "proteinStatus"),
      FieldOf(tree, "fatStatus"), FieldOf(tree, "calorieStatus"), clock))
  }

  /** `parseAnswer`: the builder starts from the raw answer and no
      status; a parsed tree overwrites all five; a blank summary throws. */
  method ParseAnswer(email: string, ref: Date, ev: Date, answer: string, tree: ReadTree, clock: Timestamp)
    returns (r: Result<AiNutritionReview, ErrorCode>)
    ensures r == ReviewOf(email, ref, ev, answer, tree, clock)
  {
    var summary := answer;
    var carbohydrate: Option<string> := None;
    var protein: Option<string> := None;
    var fat: Option<string> := None;
    var calorie: Option<string> := None;
    if tree.Parsed? {
      var s := AsTextOr(Path(tree.root, "summary"), Some(answer));
      summary := s.value;
      carbohydrate := AsTextOr(Path(tree.root, "carbohydrateStatus"), None);
      protein := AsTextOr(Path(tree.root, "proteinStatus"), None);
      fat := AsTextOr(Path(tree.root, "fatStatus"), None);
      calorie := AsTextOr(Path(tree.root, "calorieStatus"), None);
    }
    var review := AiNutritionReview(email, WeekStart(ref), ev, summary, carbohydrate, protein, fat, calorie, clock);
    if IsBlank(review.summary) {
      return Err(InternalServerError);
    }
    r := Ok(review);
  }

  /** An answer that is not JSON becomes the summary as it is, with no
      status; since the gateway only returns non-blank text, it is always
      accepted. */
  lemma {:induction false} NotJsonAnswer(email: string, ref: Date, ev: Date, answer: string, clock: Timestamp)
    requires !IsBlank(answer)
    ensures ReviewOf(email, ref, ev, answer, Unparsable, clock)
         == Ok(AiNutritionReview(email, WeekStart(ref), ev, answer, None, None, None, None, clock))
  {
  }

  /** A JSON answer without a usable `summary` keeps the raw answer as summary
      and whatever statuses it carries. */
  lemma {:induction false} MissingSummaryFallsBack(
    email: string, ref: Date, ev: Date, answer: string, root: JsonNode, clock: Timestamp)
    requires !IsBlank(answer) && Absent(root, "summary")
    ensures var r := ReviewOf(email, ref, ev, answer, Parsed(root), clock);
      && r.Ok? && r.value.summary == answer
      && r.value.carbohydrateStatus == FieldOf(Parsed(root), "carbohydrateStatus")
      && r.value.proteinStatus == FieldOf(Parsed(root), "proteinStatus")
      && r.value.fatStatus == FieldOf(Parsed(root), "fatStatus")
      && r.value.calorieStatus == FieldOf(Parsed(root), "calorieStatus")
  {
  }

  /** A parsed summary that reads blank is rejected with `INTERNAL_SERVER_ERROR`. */
  lemma {:induction false} BlankSummaryRejected(
    email: string, ref: Date, ev: Date, answer: string, root: JsonNode, clock: Timestamp)
    requires !Absent(root, "summary") && IsBlank(AsText(Path(root, "summary")))
    ensures ReviewOf(email, ref, ev, answer, Parsed(root), clock) == Err(InternalServerError)
  {
  }

  /** `buildPrompt`: the evaluation date, the profile, and the week's diet
      stats dated at most the evaluation date, in date order. */
  function ReviewPrompt(profile: Profile, weekly: WeeklyStatsResponse, ev: Date): (p: Prompt)
    ensures p.NutritionReviewPrompt? && p.evaluationDate == ev && p.profile == profile
  {
    NutritionReviewPrompt(ev, profile, Until(weekly.dietStats, DietDate, ev))
  }

  /** The prompt of an evaluation holds exactly the days from the week's
      Monday up to the evaluation date, in order. */
  lemma {:induction false} ReviewPromptCoversWeekToDate(r: Records, email: string, ref: Date, now: Date, profile: Profile)
    ensures var ev := LimitDate(ref, now);
      var p := ReviewPrompt(profile, Weekly(r, email, ev), ev);
      && |p.diet| == ev - WeekStart(ref) + 1
      && forall i :: 0 <= i < |p.diet| ==>
           p.diet[i] == Weekly(r, email, ev).dietStats[i] && p.diet[i].date == WeekStart(ref) + i
  {
    var ev := LimitDate(ref, now);
    LimitDateIdempotent(ref, now);
    WeeklyDietUntil(r, email, ev);
    WeeklyWindow(r, email, ev);
  }

  /** The service: the review store (the mapper's table keyed by email and
      evaluation date), the gateway, and `readTree` on the gateway's answers. */
  class NutritionReviewService {
    var reviews: map<(string, Date), AiNutritionReview>
    const client: GeminiClient
    const readTree: string -> ReadTree

    constructor (client: GeminiClient, readTree: string -> ReadTree)
      ensures this.client == client && this.readTree == readTree
      ensures reviews == map[] && Valid()
    {
      this.client := client;
      this.readTree := readTree;
      reviews := map[];
    }

    /** Every stored row is fit for its key. */
    ghost predicate Valid()
      reads this
    {
      forall key :: key in reviews ==> Stored(key, reviews[key])
    }

    /** What the miss path of `evaluate` produces: the profile lookup's error,
        the gateway's failure, or the parsed review. */
    function Generated(email: string, ref: Date, now: Date, clock: Timestamp, records: Records)
      : (r: Result<AiNutritionReview, ErrorCode>)
      ensures r.Ok? ==> Stored((email, LimitDate(ref, now)), r.value) && r.value.createdAt == clock
      ensures MyPage(records, email).Err? ==> r == Err(MyPage(records, email).error)
      ensures MyPage(records, email).Ok? && !KeyConfigured(client.apiKey) ==> r == Err(InternalServerError)
    {
      var ev := LimitDate(ref, now);
      match MyPage(records, email)
      case Err(e) => Err(e)
      case Ok(profile) =>
        var prompt := ReviewPrompt(profile, Weekly(records, email, ev), ev);
        match client.Outcome(prompt)
        case Err(f) => Err(FailureCode(f))
        case Ok(answer) =>
          LimitDateIdempotent(ref, now);
          ReviewOf(email, ref, ev, answer, readTree(answer), clock)
    }

    /** The gateway requests the miss path sends: one, once the profile is
        found and the key is configured; none otherwise. */
    function Calls(email: string, ref: Date, now: Date, records: Records): (c: seq<(string, Prompt)>)
      ensures |c| <= 1
      ensures |c| == 1 <==> MyPage(records, email).Ok? && KeyConfigured(client.apiKey)
    {
      var ev := LimitDate(ref, now);
      match MyPage(records, email)
      case Err(_) => []
      case Ok(profile) =>
        if KeyConfigured(client.apiKey) then [client.Request(ReviewPrompt(profile, Weekly(records, email, ev), ev))]
        else []
    }

    /** `get`: the stored review of the clamped date, or an empty response
        carrying the week start and the evaluation date. Reads only. */
    function Get(email: string, ref: Date, now: Date): (r: NutritionReviewResponse)
      reads this
      ensures (email, LimitDate(ref, now)) !in reviews ==>
        r == NutritionReviewResponse(WeekStart(ref), LimitDate(ref, now), None, None, None, None, None, None)
      ensures Valid() ==> r.weekStartDate == WeekStart(ref) && r.evaluationDate == LimitDate(ref, now)
      ensures Valid() ==> (r.summary.Some? <==> (email, LimitDate(ref, now)) in reviews)
    {
      var ev := LimitDate(ref, now);
      LimitDateIdempotent(ref, now);
      if (email, ev) in reviews then ToResponse(reviews[(email, ev)])
      else NutritionReviewResponse(WeekStart(ref), ev, None, None, None, None, None, None)
    }

    /** `evaluate`: a stored review for the clamped date is returned as it is,
        with no gateway call and no insert; otherwise the profile, the week's
        stats, the prompt, the gateway and `parseAnswer` run in turn, and the
        review is inserted only when all of them succeed. */
    method Evaluate(email: string, ref: Date, now: Date, clock: Timestamp, records: Records)
      returns (r: Result<NutritionReviewResponse, ErrorCode>)
      requires Valid()
      modifies this`reviews, client`sent
      ensures Valid()
      ensures var key := (email, LimitDate(ref, now));
        key in old(reviews) ==>
          r == Ok(ToResponse(old(reviews)[key])) && reviews == old(reviews) && client.sent == old(client.sent)
      ensures var key := (email, LimitDate(ref, now));
        var g := Generated(email, ref, now, clock, records);
        key !in old(reviews) ==>
          && client.sent == old(client.sent) + Calls(email, ref, now, records)
          && (g.Ok? ==> r == Ok(ToResponse(g.value)) && reviews == old(reviews)[key := g.value])
          && (g.Err? ==> r == Err(g.error) && reviews == old(reviews))
      ensures r.Ok? ==> r.value == Get(email, ref, now) && r.value.summary.Some? && !IsBlank(r.value.summary.value)
    {
      var ev := LimitDate(ref, now);
      var key := (email, ev);
      LimitDateIdempotent(ref, now);
      if key in reviews {
        return Ok(ToResponse(reviews[key]));
      }
      var profile := MyPage(records, email);
      if profile.Err? {
        return Err(profile.error);
      }
      var weekly := GetWeeklyStats(records, email, ev);
      var prompt := ReviewPrompt(profile.value, weekly, ev);
      var answer := client.Generate(prompt);
      if answer.Err? {
        return Err(FailureCode(answer.error));
      }
      var parsed := ParseAnswer(email, ref, ev, answer.value, readTree(answer.value), clock);
      if parsed.Err? {
        return Err(parsed.error);
      }
      reviews := reviews[key := parsed.value];
      r := Ok(ToResponse(parsed.value));
    }
  }
}
